/** The hierarchy layout resolver: from a resolved page module, follow each
    module's `layout` reference and collect the layouts outermost first.

    Module objects are identified by `ModuleId`; a `Graph` maps each id to
    its `default` component and the id its `layout` reference resolves to.
    A reference cycle that does not pass through the start's default makes
    the source's loop run for ever, so the walk here takes `fuel`, the
    number of layouts it may visit, and reports `OutOfFuel` past it. */
module Layout {
  import opened Base

  type ModuleId = nat
  type Component = string

  datatype LayoutModule = LayoutModule(default: Component, layout: Option<ModuleId>)

  type Graph = map<ModuleId, LayoutModule>

  datatype Resolution =
    | Resolved(default: Component, layout: seq<Component>)
    | Circular(message: string)
    | OutOfFuel

  /** Every layout reference resolves to a module of the graph. */
  predicate Closed(g: Graph) {
    forall id :: id in g && g[id].layout.Some? ==> g[id].layout.value in g
  }

  function CircularMessage(name: string): string {
    "Circular layout detected in component: " + name
  }

  /** The first `n` modules of the chain that starts at `o` (fewer when the
      chain ends sooner). */
  function Links(g: Graph, o: Option<ModuleId>, n: nat): (p: seq<ModuleId>)
    requires Closed(g) && (o.Some? ==> o.value in g)
    ensures |p| <= n
    ensures forall i :: 0 <= i < |p| ==> p[i] in g
    decreases n
  {
    if n == 0 || o.None? then [] else [o.value] + Links(g, g[o.value].layout, n - 1)
  }

  /** The first `n` layouts of module `start`, innermost first. */
  function Chain(g: Graph, start: ModuleId, n: nat): (p: seq<ModuleId>)
    requires Closed(g) && start in g
    ensures |p| <= n
    ensures forall i :: 0 <= i < |p| ==> p[i] in g
  {
    Links(g, g[start].layout, n)
  }

  /** The chain has more than `n` layouts. */
  predicate Continues(g: Graph, start: ModuleId, n: nat)
    requires Closed(g) && start in g
  {
    |Chain(g, start, n + 1)| > n
  }

  /** The layouts' components, outermost first. */
  function Outermost(g: Graph, p: seq<ModuleId>): (r: seq<Component>)
    requires forall i :: 0 <= i < |p| ==> p[i] in g
    ensures |r| == |p|
  {
    seq(|p|, i requires 0 <= i < |p| => g[p[|p| - 1 - i]].default)
  }

  /** Some layout of `p` has component `c`. */
  predicate HitsComponent(g: Graph, p: seq<ModuleId>, c: Component)
    requires forall i :: 0 <= i < |p| ==> p[i] in g
  {
    exists i :: 0 <= i < |p| && g[p[i]].default == c
  }

  lemma HitsPrefix(g: Graph, p: seq<ModuleId>, q: seq<ModuleId>, c: Component)
    requires forall i :: 0 <= i < |p + q| ==> (p + q)[i] in g
    requires forall i :: 0 <= i < |p| ==> p[i] in g
    requires HitsComponent(g, p, c)
    ensures HitsComponent(g, p + q, c)
  {
    var i :| 0 <= i < |p| && g[p[i]].default == c;
    assert (p + q)[i] == p[i];
  }

  lemma LinksStep(g: Graph, x: ModuleId, k: nat)
    requires Closed(g) && x in g && k > 0
    ensures Links(g, Some(x), k) == [x] + Links(g, g[x].layout, k - 1)
  {
  }

  /** One step of the walk: module `x` moves from the pending links to the path. */
  lemma ChainStep(g: Graph, start: ModuleId, fuel: nat, path: seq<ModuleId>, x: ModuleId)
    requires Closed(g) && start in g && x in g && |path| < fuel
    requires Chain(g, start, fuel) == path + Links(g, Some(x), fuel - |path|)
    requires Chain(g, start, fuel + 1) == path + Links(g, Some(x), fuel + 1 - |path|)
    ensures Chain(g, start, fuel) == (path + [x]) + Links(g, g[x].layout, fuel - |path| - 1)
    ensures Chain(g, start, fuel + 1) == (path + [x]) + Links(g, g[x].layout, fuel - |path|)
  {
    LinksStep(g, x, fuel - |path|);
    LinksStep(g, x, fuel + 1 - |path|);
  }

  lemma OutermostSnoc(g: Graph, p: seq<ModuleId>, x: ModuleId)
    requires x in g && forall i :: 0 <= i < |p| ==> p[i] in g
    ensures Outermost(g, p + [x]) == [g[x].default] + Outermost(g, p)
  {
    var q := p + [x];
    assert forall i :: 0 <= i < |p| ==> q[i] == p[i];
    assert Outermost(g, q)[0] == g[x].default;
    forall i | 1 <= i < |q| ensures Outermost(g, q)[i] == Outermost(g, p)[i - 1] {
      assert q[|q| - 1 - i] == p[|p| - 1 - (i - 1)];
    }
  }

  lemma HitsSnoc(g: Graph, p: seq<ModuleId>, x: ModuleId, c: Component)
    requires x in g && forall i :: 0 <= i < |p| ==> p[i] in g
    ensures HitsComponent(g, p + [x], c) <==> HitsComponent(g, p, c) || g[x].default == c
  {
    var q := p + [x];
    assert forall i :: 0 <= i < |p| ==> q[i] == p[i];
    assert q[|p|] == x;
  }

  /** What the resolver does, as the source writes it: the set of seen
      components holds only the start's default. */
  function ResolveAsWritten(g: Graph, start: ModuleId, name: string, fuel: nat): Resolution
    requires Closed(g) && start in g
  {
    var p := Chain(g, start, fuel);
    var d := g[start].default;
    if HitsComponent(g, p, d) then Circular(CircularMessage(name))
    else if Continues(g, start, fuel) then OutOfFuel
    else Resolved(d, Outermost(g, p))
  }

  /** The loop state after the layouts `path`, with `current` still to visit. */
  predicate Walked(g: Graph, start: ModuleId, fuel: nat, path: seq<ModuleId>, current: Option<ModuleId>)
    requires Closed(g) && start in g
  {
    && |path| <= fuel
    && (current.Some? ==> current.value in g)
    && (forall i :: 0 <= i < |path| ==> path[i] in g)
    && Chain(g, start, fuel) == path + Links(g, current, fuel - |path|)
    && Chain(g, start, fuel + 1) == path + Links(g, current, fuel + 1 - |path|)
  }

  /** The loop meets the start's component: the result is the error. */
  lemma AsWrittenCircular(g: Graph, start: ModuleId, name: string, fuel: nat, path: seq<ModuleId>, x: ModuleId)
    requires Closed(g) && start in g && Walked(g, start, fuel, path, Some(x)) && |path| < fuel
    requires g[x].default == g[start].default
    ensures ResolveAsWritten(g, start, name, fuel) == Circular(CircularMessage(name))
  {
    ChainStep(g, start, fuel, path, x);
    HitsSnoc(g, path, x, g[start].default);
    HitsPrefix(g, path + [x], Links(g, g[x].layout, fuel - |path| - 1), g[start].default);
  }

  /** The loop takes a new layout. */
  lemma AsWrittenAdvance(g: Graph, start: ModuleId, fuel: nat, path: seq<ModuleId>, x: ModuleId)
    requires Closed(g) && start in g && Walked(g, start, fuel, path, Some(x)) && |path| < fuel
    requires !HitsComponent(g, path, g[start].default) && g[x].default != g[start].default
    ensures Walked(g, start, fuel, path + [x], g[x].layout)
    ensures !HitsComponent(g, path + [x], g[start].default)
    ensures Outermost(g, path + [x]) == [g[x].default] + Outermost(g, path)
  {
    ChainStep(g, start, fuel, path, x);
    HitsSnoc(g, path, x, g[start].default);
    OutermostSnoc(g, path, x);
  }

  /** The loop stops, by fuel or at the end of the chain. */
  lemma AsWrittenStop(g: Graph, start: ModuleId, name: string, fuel: nat, path: seq<ModuleId>, current: Option<ModuleId>)
    requires Closed(g) && start in g && Walked(g, start, fuel, path, current)
    requires !HitsComponent(g, path, g[start].default) && (current.None? || |path| == fuel)
    ensures current.Some? ==> ResolveAsWritten(g, start, name, fuel) == OutOfFuel
    ensures current.None? ==> ResolveAsWritten(g, start, name, fuel) == Resolved(g[start].default, Outermost(g, path))
  {
    if current.Some? {
      LinksStep(g, current.value, 1);
    }
  }

  /** `hierarchyLayout(resolver)(name)` once the resolver has produced module
      `start`: the loop over `next(current)`, with `layout.unshift`. */
  method HierarchyLayout(g: Graph, start: ModuleId, name: string, fuel: nat) returns (r: Resolution)
    requires Closed(g) && start in g
    ensures r == ResolveAsWritten(g, start, name, fuel)
  {
    var page := g[start];
    var layout: seq<Component> := [];
    var resolved: set<Component> := {page.default};
    var current := page.layout;
    var steps := 0;
    ghost var path: seq<ModuleId> := [];
    while current.Some?
      invariant Walked(g, start, fuel, path, current) && |path| == steps
      invariant !HitsComponent(g, path, page.default)
      invariant layout == Outermost(g, path)
      decreases fuel - steps
    {
      if steps == fuel {
        AsWrittenStop(g, start, name, fuel, path, current);
        return OutOfFuel;
      }
      var x := current.value;
      var m := g[x];
      if m.default in resolved {
        AsWrittenCircular(g, start, name, fuel, path, x);
        return Circular(CircularMessage(name));
      }
      AsWrittenAdvance(g, start, fuel, path, x);
      layout := [m.default] + layout;
      path := path + [x];
      current := m.layout;
      steps := steps + 1;
    }
    AsWrittenStop(g, start, name, fuel, path, current);
    return Resolved(page.default, layout);
  }

  // Properties of the resolver as written.

  /** A resolved page keeps its own component as `default`, and its layout
      list never contains that component. */
  lemma ResolvedKeepsDefault(g: Graph, start: ModuleId, name: string, fuel: nat)
    requires Closed(g) && start in g
    requires ResolveAsWritten(g, start, name, fuel).Resolved?
    ensures ResolveAsWritten(g, start, name, fuel).default == g[start].default
    ensures g[start].default !in ResolveAsWritten(g, start, name, fuel).layout
  {
  }

  /** A module without a layout resolves to an empty layout list. */
  lemma NoLayout(g: Graph, start: ModuleId, name: string, fuel: nat)
    requires Closed(g) && start in g && g[start].layout.None?
    ensures ResolveAsWritten(g, start, name, fuel) == Resolved(g[start].default, [])
  {
  }

  /** The resolver fails exactly when one of the layouts (within the fuel)
      has the start's component. */
  lemma CircularIff(g: Graph, start: ModuleId, name: string, fuel: nat)
    requires Closed(g) && start in g
    ensures ResolveAsWritten(g, start, name, fuel).Circular? <==>
      exists i :: 0 <= i < |Chain(g, start, fuel)| && g[Chain(g, start, fuel)[i]].default == g[start].default
    ensures ResolveAsWritten(g, start, name, fuel).Circular? ==>
      ResolveAsWritten(g, start, name, fuel).message == CircularMessage(name)
  {
  }

  /** A page A with layout B whose layout C has none: the list is [C, B]. */
  lemma ChainOfThree(fuel: nat)
    requires fuel >= 2
    ensures ResolveAsWritten(map[0 := LayoutModule("A", Some(1)), 1 := LayoutModule("B", Some(2)), 2 := LayoutModule("C", None)], 0, "Page", fuel)
      == Resolved("A", ["C", "B"])
  {
    var g := map[0 := LayoutModule("A", Some(1)), 1 := LayoutModule("B", Some(2)), 2 := LayoutModule("C", None)];
    LinksStep(g, 1, fuel);
    LinksStep(g, 2, fuel - 1);
    LinksStep(g, 1, fuel + 1);
    LinksStep(g, 2, fuel);
    assert Outermost(g, [1, 2]) == ["C", "B"];
  }

  /** A page that is its own layout, A -> A, fails. */
  lemma SelfLayout(fuel: nat)
    requires fuel >= 1
    ensures ResolveAsWritten(map[0 := LayoutModule("A", Some(0))], 0, "A", fuel) == Circular(CircularMessage("A"))
  {
    var g := map[0 := LayoutModule("A", Some(0))];
    assert Chain(g, 0, fuel)[0] == 0;
  }

  /** A -> B -> A fails. */
  lemma TwoCycle(fuel: nat)
    requires fuel >= 2
    ensures ResolveAsWritten(map[0 := LayoutModule("A", Some(1)), 1 := LayoutModule("B", Some(0))], 0, "A", fuel)
      == Circular(CircularMessage("A"))
  {
    var g := map[0 := LayoutModule("A", Some(1)), 1 := LayoutModule("B", Some(0))];
    LinksStep(g, 1, fuel);
    LinksStep(g, 0, fuel - 1);
    assert Chain(g, 0, fuel)[1] == 0;
  }

  // The finding: a cycle that does not pass through the start.

  /** The cycle graph A -> B -> C -> B. */
  function LoopGraph(): (g: Graph)
    ensures Closed(g) && 0 in g
  {
    map[0 := LayoutModule("A", Some(1)), 1 := LayoutModule("B", Some(2)), 2 := LayoutModule("C", Some(1))]
  }

  lemma {:induction false} LoopLinks(o: ModuleId, n: nat)
    requires o == 1 || o == 2
    ensures |Links(LoopGraph(), Some(o), n)| == n
    ensures !HitsComponent(LoopGraph(), Links(LoopGraph(), Some(o), n), "A")
    decreases n
  {
    var g := LoopGraph();
    if n > 0 {
      var nx := if o == 1 then 2 else 1;
      LoopLinks(nx, n - 1);
      var p := Links(g, Some(o), n);
      var rest := Links(g, Some(nx), n - 1);
      assert p == [o] + rest;
      assert forall i :: 0 < i < |p| ==> p[i] == rest[i - 1];
    }
  }

  /** As written, A -> B -> C -> B is never reported as circular: every fuel
      runs out, that is, the source's loop never ends. */
  lemma LoopNotDetected(fuel: nat)
    ensures ResolveAsWritten(LoopGraph(), 0, "A", fuel) == OutOfFuel
  {
    LoopLinks(1, fuel);
    LoopLinks(1, fuel + 1);
  }

  // The corrected resolver: every component seen is added to the set.

  /** Some two of the start's component and the layouts' components coincide. */
  predicate Repeats(g: Graph, start: ModuleId, p: seq<ModuleId>)
    requires start in g && forall i :: 0 <= i < |p| ==> p[i] in g
  {
    HitsComponent(g, p, g[start].default)
    || exists i, j :: 0 <= i < j < |p| && g[p[i]].default == g[p[j]].default
  }

  function ResolveChecked(g: Graph, start: ModuleId, name: string, fuel: nat): Resolution
    requires Closed(g) && start in g
  {
    var p := Chain(g, start, fuel);
    if Repeats(g, start, p) then Circular(CircularMessage(name))
    else if Continues(g, start, fuel) then OutOfFuel
    else Resolved(g[start].default, Outermost(g, p))
  }

  /** The components the corrected resolver has seen after the layouts `p`. */
  function Seen(g: Graph, start: ModuleId, p: seq<ModuleId>): set<Component>
    requires start in g && forall i :: 0 <= i < |p| ==> p[i] in g
  {
    {g[start].default} + set i | 0 <= i < |p| :: g[p[i]].default
  }

  lemma SeenSnoc(g: Graph, start: ModuleId, p: seq<ModuleId>, x: ModuleId)
    requires start in g && x in g && forall i :: 0 <= i < |p| ==> p[i] in g
    ensures Seen(g, start, p + [x]) == Seen(g, start, p) + {g[x].default}
  {
    var q := p + [x];
    assert forall i :: 0 <= i < |p| ==> q[i] == p[i];
    assert q[|p|] == x;
  }

  lemma RepeatsSnoc(g: Graph, start: ModuleId, p: seq<ModuleId>, x: ModuleId)
    requires start in g && x in g && forall i :: 0 <= i < |p| ==> p[i] in g
    ensures Repeats(g, start, p + [x]) <==> Repeats(g, start, p) || g[x].default in Seen(g, start, p)
  {
    var q := p + [x];
    assert forall i :: 0 <= i < |p| ==> q[i] == p[i];
    assert q[|p|] == x;
    HitsSnoc(g, p, x, g[start].default);
    if g[x].default in Seen(g, start, p) && g[x].default != g[start].default {
      var i :| 0 <= i < |p| && g[p[i]].default == g[x].default;
      assert q[i] == p[i];
    }
    if Repeats(g, start, q) && !HitsComponent(g, q, g[start].default) {
      var i, j :| 0 <= i < j < |q| && g[q[i]].default == g[q[j]].default;
      if j == |p| {
        assert g[p[i]].default == g[x].default;
      } else {
        assert q[i] == p[i] && q[j] == p[j];
      }
    }
  }

  lemma RepeatsPrefix(g: Graph, start: ModuleId, p: seq<ModuleId>, q: seq<ModuleId>)
    requires start in g
    requires forall i :: 0 <= i < |p + q| ==> (p + q)[i] in g
    requires forall i :: 0 <= i < |p| ==> p[i] in g
    requires Repeats(g, start, p)
    ensures Repeats(g, start, p + q)
  {
    var r := p + q;
    assert forall i :: 0 <= i < |p| ==> r[i] == p[i];
    if HitsComponent(g, p, g[start].default) {
      HitsPrefix(g, p, q, g[start].default);
    } else {
      var i, j :| 0 <= i < j < |p| && g[p[i]].default == g[p[j]].default;
      assert g[r[i]].default == g[r[j]].default;
    }
  }

  /** The corrected loop meets a component it has seen: the result is the error. */
  lemma CheckedCircular(g: Graph, start: ModuleId, name: string, fuel: nat, path: seq<ModuleId>, x: ModuleId)
    requires Closed(g) && start in g && Walked(g, start, fuel, path, Some(x)) && |path| < fuel
    requires g[x].default in Seen(g, start, path)
    ensures ResolveChecked(g, start, name, fuel) == Circular(CircularMessage(name))
  {
    ChainStep(g, start, fuel, path, x);
    RepeatsSnoc(g, start, path, x);
    RepeatsPrefix(g, start, path + [x], Links(g, g[x].layout, fuel - |path| - 1));
  }

  /** The corrected loop takes a new layout. */
  lemma CheckedAdvance(g: Graph, start: ModuleId, fuel: nat, path: seq<ModuleId>, x: ModuleId)
    requires Closed(g) && start in g && Walked(g, start, fuel, path, Some(x)) && |path| < fuel
    requires !Repeats(g, start, path) && g[x].default !in Seen(g, start, path)
    ensures Walked(g, start, fuel, path + [x], g[x].layout)
    ensures !Repeats(g, start, path + [x])
    ensures Seen(g, start, path + [x]) == Seen(g, start, path) + {g[x].default}
    ensures Outermost(g, path + [x]) == [g[x].default] + Outermost(g, path)
  {
    ChainStep(g, start, fuel, path, x);
    RepeatsSnoc(g, start, path, x);
    OutermostSnoc(g, path, x);
    SeenSnoc(g, start, path, x);
  }

  /** The corrected loop stops, by fuel or at the end of the chain. */
  lemma CheckedStop(g: Graph, start: ModuleId, name: string, fuel: nat, path: seq<ModuleId>, current: Option<ModuleId>)
    requires Closed(g) && start in g && Walked(g, start, fuel, path, current)
    requires !Repeats(g, start, path) && (current.None? || |path| == fuel)
    ensures current.Some? ==> ResolveChecked(g, start, name, fuel) == OutOfFuel
    ensures current.None? ==> ResolveChecked(g, start, name, fuel) == Resolved(g[start].default, Outermost(g, path))
  {
    if current.Some? {
      LinksStep(g, current.value, 1);
    }
  }

  /** The resolver with `resolved.add(current.default)` after each layout. */
  method HierarchyLayoutChecked(g: Graph, start: ModuleId, name: string, fuel: nat) returns (r: Resolution)
    requires Closed(g) && start in g
    ensures r == ResolveChecked(g, start, name, fuel)
  {
    var page := g[start];
    var layout: seq<Component> := [];
    var resolved: set<Component> := {page.default};
    var current := page.layout;
    var steps := 0;
    ghost var path: seq<ModuleId> := [];
    assert Seen(g, start, path) == resolved;
    while current.Some?
      invariant Walked(g, start, fuel, path, current) && |path| == steps
      invariant !Repeats(g, start, path)
      invariant resolved == Seen(g, start, path)
      invariant layout == Outermost(g, path)
      decreases fuel - steps
    {
      if steps == fuel {
        CheckedStop(g, start, name, fuel, path, current);
        return OutOfFuel;
      }
      var x := current.value;
      var m := g[x];
      if m.default in resolved {
        CheckedCircular(g, start, name, fuel, path, x);
        return Circular(CircularMessage(name));
      }
      CheckedAdvance(g, start, fuel, path, x);
      layout := [m.default] + layout;
      path := path + [x];
      resolved := resolved + {m.default};
      current := m.layout;
      steps := steps + 1;
    }
    CheckedStop(g, start, name, fuel, path, current);
    return Resolved(page.default, layout);
  }

  predicate Distinct<T(==)>(s: seq<T>) {
    forall i, j :: 0 <= i < j < |s| ==> s[i] != s[j]
  }

  lemma {:induction false} DistinctFitsIn<T>(s: seq<T>, keys: set<T>)
    requires Distinct(s) && forall i :: 0 <= i < |s| ==> s[i] in keys
    ensures |s| <= |keys|
    decreases |s|
  {
    if s != [] {
      var last := s[|s| - 1];
      var init := s[..|s| - 1];
      forall i | 0 <= i < |init| ensures init[i] in keys - {last} {
        assert init[i] == s[i];
      }
      DistinctFitsIn(init, keys - {last});
    }
  }

  /** A corrected resolution lists no component twice and never the start's. */
  lemma CheckedDistinct(g: Graph, start: ModuleId, name: string, fuel: nat)
    requires Closed(g) && start in g
    requires ResolveChecked(g, start, name, fuel).Resolved?
    ensures Distinct([g[start].default] + ResolveChecked(g, start, name, fuel).layout)
  {
    var p := Chain(g, start, fuel);
    var l := [g[start].default] + Outermost(g, p);
    forall i, j | 0 <= i < j < |l| ensures l[i] != l[j] {
      if i == 0 {
        assert l[j] == g[p[|p| - j]].default;
      } else {
        assert l[i] == g[p[|p| - i]].default && l[j] == g[p[|p| - j]].default;
      }
    }
  }

  lemma {:induction false} LinksShortStop(g: Graph, o: Option<ModuleId>, n: nat)
    requires Closed(g) && (o.Some? ==> o.value in g)
    requires |Links(g, o, n)| < n
    ensures Links(g, o, n + 1) == Links(g, o, n)
    decreases n
  {
    if o.Some? && n > 0 {
      LinksShortStop(g, g[o.value].layout, n - 1);
    }
  }

  /** With at least as much fuel as there are modules, the corrected
      resolver always ends: it resolves or reports the cycle. */
  lemma CheckedTerminates(g: Graph, start: ModuleId, name: string, fuel: nat)
    requires Closed(g) && start in g && fuel >= |g|
    ensures ResolveChecked(g, start, name, fuel) != OutOfFuel
  {
    var p := Chain(g, start, fuel);
    if !Repeats(g, start, p) {
      var ids := [start] + p;
      forall i, j | 0 <= i < j < |ids| ensures ids[i] != ids[j] {
        if i == 0 {
          assert g[ids[j]].default == g[p[j - 1]].default;
        } else {
          assert ids[i] == p[i - 1] && ids[j] == p[j - 1];
        }
      }
      forall i | 0 <= i < |ids| ensures ids[i] in g.Keys {
        if i > 0 { assert ids[i] == p[i - 1]; }
      }
      DistinctFitsIn(ids, g.Keys);
      assert |g.Keys| == |g|;
      LinksShortStop(g, g[start].layout, fuel);
    }
  }
}
