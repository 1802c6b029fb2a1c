/** The publication order of workspace packages: Kahn's algorithm over the local dependency graph. */
module Lockstep {
  import opened Basics

  /** A package and, for each dependency field of its manifest, the names listed there. */
  datatype Package = Package(name: string, fields: seq<seq<string>>)

  datatype Sorted = Order(names: seq<string>) | CycleDetected

  type Graph = map<string, seq<string>>

  function Names(packages: seq<Package>): (names: seq<string>)
    ensures |names| == |packages| && forall i | 0 <= i < |names| :: names[i] == packages[i].name
  {
    seq(|packages|, i requires 0 <= i < |packages| => packages[i].name)
  }

  // ----------------------------------------------------------- building the graph

  /** One entry of `name` for every time `dependency` is listed. */
  function Listings(name: string, listed: seq<string>, dependency: string): seq<string> {
    if listed == [] then []
    else Listings(name, listed[..|listed| - 1], dependency)
         + if listed[|listed| - 1] == dependency then [name] else []
  }

  function FieldListings(name: string, fields: seq<seq<string>>, dependency: string): seq<string> {
    if fields == [] then []
    else FieldListings(name, fields[..|fields| - 1], dependency) + Listings(name, fields[|fields| - 1], dependency)
  }

  /** The dependents of `dependency`, one entry per listing, in package order. */
  function Dependents(packages: seq<Package>, dependency: string): seq<string> {
    if packages == [] then []
    else
      var last := packages[|packages| - 1];
      Dependents(packages[..|packages| - 1], dependency) + FieldListings(last.name, last.fields, dependency)
  }

  /** Every package with its dependents; names outside the workspace have no entry. */
  ghost predicate IsGraphOf(graph: Graph, packages: seq<Package>) {
    && (forall name :: name in graph <==> exists i | 0 <= i < |packages| :: packages[i].name == name)
    && forall name | name in graph :: graph[name] == Dependents(packages, name)
  }

  method BuildGraph(packages: seq<Package>) returns (graph: Graph)
    ensures IsGraphOf(graph, packages)
  {
    graph := map[];
    for i := 0 to |packages|
      invariant forall name :: name in graph <==> exists k | 0 <= k < i :: packages[k].name == name
      invariant forall name | name in graph :: graph[name] == []
    {
      graph := graph[packages[i].name := []];
    }
    ghost var known := graph.Keys;
    for i := 0 to |packages|
      invariant graph.Keys == known
      invariant forall name | name in graph :: graph[name] == Dependents(packages[..i], name)
    {
      var p := packages[i];
      ghost var before := graph;
      for f := 0 to |p.fields|
        invariant graph.Keys == known
        invariant forall name | name in graph :: graph[name] == before[name] + FieldListings(p.name, p.fields[..f], name)
      {
        graph := AddListings(graph, p.name, p.fields[f]);
        assert p.fields[..f + 1][..f] == p.fields[..f];
      }
      assert p.fields[..|p.fields|] == p.fields;
      assert packages[..i + 1][..i] == packages[..i];
    }
    assert packages[..|packages|] == packages;
  }

  /** Adds an edge to `name` from every listed package of the workspace. */
  method AddListings(graph: Graph, name: string, listed: seq<string>) returns (r: Graph)
    ensures r.Keys == graph.Keys
    ensures forall d | d in graph :: r[d] == graph[d] + Listings(name, listed, d)
  {
    r := graph;
    for k := 0 to |listed|
      invariant r.Keys == graph.Keys
      invariant forall d | d in graph :: r[d] == graph[d] + Listings(name, listed[..k], d)
    {
      assert listed[..k + 1][..k] == listed[..k];
      if listed[k] in r {
        r := r[listed[k] := r[listed[k]] + [name]];
      }
    }
    assert listed[..|listed|] == listed;
  }

  /** The graph of packages with distinct names has edges between its own packages only. */
  ghost predicate Closed(names: seq<string>, graph: Graph) {
    && Distinct(names)
    && (forall name :: name in graph <==> name in names)
    && forall u, v | u in graph && v in graph[u] :: v in names
  }

  lemma {:induction false} ListingsNames(name: string, fields: seq<seq<string>>, d: string, v: string)
    requires v in FieldListings(name, fields, d)
    ensures v == name && exists f | 0 <= f < |fields| :: d in fields[f]
  {
    var n := |fields| - 1;
    if v in Listings(name, fields[n], d) {
      OneListing(name, fields[n], d, v);
    } else {
      ListingsNames(name, fields[..n], d, v);
      var f :| 0 <= f < n && d in fields[..n][f];
      assert d in fields[f];
    }
  }

  lemma {:induction false} OneListing(name: string, listed: seq<string>, d: string, v: string)
    requires v in Listings(name, listed, d)
    ensures v == name && d in listed
  {
    if v in Listings(name, listed[..|listed| - 1], d) {
      OneListing(name, listed[..|listed| - 1], d, v);
    }
  }

  /** A dependent is a package that lists the dependency in one of its fields. */
  lemma {:induction false} DependentsList(packages: seq<Package>, d: string, v: string)
    requires v in Dependents(packages, d)
    ensures exists i | 0 <= i < |packages| ::
      packages[i].name == v && exists f | 0 <= f < |packages[i].fields| :: d in packages[i].fields[f]
  {
    var n := |packages| - 1;
    if v in FieldListings(packages[n].name, packages[n].fields, d) {
      ListingsNames(packages[n].name, packages[n].fields, d, v);
    } else {
      DependentsList(packages[..n], d, v);
      var i :| 0 <= i < n && packages[..n][i].name == v
        && exists f | 0 <= f < |packages[..n][i].fields| :: d in packages[..n][i].fields[f];
      assert packages[i] == packages[..n][i];
    }
  }

  lemma GraphIsClosed(packages: seq<Package>, graph: Graph)
    requires Distinct(Names(packages)) && IsGraphOf(graph, packages)
    ensures Closed(Names(packages), graph)
  {
    var names := Names(packages);
    forall u, v | u in graph && v in graph[u] ensures v in names {
      DependentsList(packages, u, v);
      var i :| 0 <= i < |packages| && packages[i].name == v;
      assert names[i] == v;
    }
    forall name ensures name in graph <==> name in names {
      if name in graph {
        var i :| 0 <= i < |packages| && packages[i].name == name;
        assert names[i] == name;
      }
    }
  }

  // ------------------------------------------------------------- what is promised

  function Position(names: seq<string>, name: string): (i: nat)
    requires name in names
    ensures i < |names| && names[i] == name
  {
    if names[0] == name then 0 else 1 + Position(names[1..], name)
  }

  /** A permutation of the names in which every edge goes forward. */
  ghost predicate IsOrder(order: seq<string>, names: seq<string>, graph: Graph) {
    && multiset(order) == multiset(names) && Distinct(order)
    && forall u, v | u in graph && v in graph[u] ::
         u in order && v in order && Position(order, u) < Position(order, v)
  }

  /** A walk along edges that ends where it began; a self-edge is one too. */
  ghost predicate IsCycle(c: seq<string>, graph: Graph) {
    && |c| >= 2 && c[0] == c[|c| - 1]
    && forall i | 0 <= i < |c| - 1 :: c[i] in graph && c[i + 1] in graph[c[i]]
  }

  /** The edges into `v` from packages that are not done, counted with repetition. */
  ghost function Incoming(names: seq<string>, graph: Graph, done: set<string>, v: string): nat
    requires forall name | name in names :: name in graph
  {
    if names == [] then 0
    else (if names[0] in done then 0 else multiset(graph[names[0]])[v]) + Incoming(names[1..], graph, done, v)
  }

  lemma {:induction false} IncomingZero(names: seq<string>, graph: Graph, done: set<string>, v: string)
    requires forall name | name in names :: name in graph
    ensures Incoming(names, graph, done, v) == 0 <==> forall u | u in names && u !in done :: v !in graph[u]
  {
    if names != [] {
      IncomingZero(names[1..], graph, done, v);
      assert forall u | u in names :: u == names[0] || u in names[1..];
    }
  }

  lemma {:induction false} IncomingDone(names: seq<string>, graph: Graph, done: set<string>, n: string, v: string)
    requires forall name | name in names :: name in graph
    requires Distinct(names) && n !in done
    ensures Incoming(names, graph, done, v) ==
      Incoming(names, graph, done + {n}, v) + if n in names then multiset(graph[n])[v] else 0
  {
    if names != [] {
      assert Distinct(names[1..]);
      assert n in names <==> n == names[0] || n in names[1..];
      assert n == names[0] ==> n !in names[1..];
      IncomingDone(names[1..], graph, done, n, v);
    }
  }

  /** Every degree is the incoming edges from packages not done, and what `rest` still adds. */
  ghost predicate Counts(names: seq<string>, graph: Graph, inDeg: map<string, int>, done: set<string>, rest: seq<string>)
    requires Closed(names, graph)
  {
    forall v | v in names :: v in inDeg && inDeg[v] == Incoming(names, graph, done, v) + multiset(rest)[v]
  }

  /** `out` is placed, and `q` is what is left without incoming edges. */
  ghost predicate Queued(names: seq<string>, inDeg: map<string, int>, q: seq<string>, out: seq<string>) {
    && Distinct(out + q) && (forall v | v in out + q :: v in names) && (forall v | v in names :: v in inDeg)
    && forall v | v in names :: inDeg[v] == 0 <==> v in out + q
  }

  /** What the algorithm knows between packages. */
  ghost predicate Progress(names: seq<string>, graph: Graph, inDeg: map<string, int>, q: seq<string>, out: seq<string>) {
    && Closed(names, graph) && Queued(names, inDeg, q, out)
    && Counts(names, graph, inDeg, Elements(out), []) && PrefixClosed(graph, out)
  }

  ghost function Elements(s: seq<string>): set<string> { set x | x in s }

  /** The sources of every edge into a placed package are placed before it. */
  ghost predicate PrefixClosed(graph: Graph, out: seq<string>) {
    forall i, u | 0 <= i < |out| && u in graph && out[i] in graph[u] :: u in out[..i]
  }

  // ---------------------------------------------------------------------- code

  /** Counts one edge for every listed dependent. */
  method CountEdges(names: seq<string>, before: map<string, int>, dependents: seq<string>) returns (inDeg: map<string, int>)
    requires (forall v | v in names :: v in before) && forall v | v in dependents :: v in names
    ensures forall v | v in names :: v in inDeg && inDeg[v] == before[v] + multiset(dependents)[v]
  {
    inDeg := before;
    for k := 0 to |dependents|
      invariant forall v | v in names :: v in inDeg && inDeg[v] == before[v] + multiset(dependents[..k])[v]
    {
      var v := dependents[k];
      assert dependents[..k + 1] == dependents[..k] + [v];
      inDeg := inDeg[v := inDeg[v] + 1];
    }
    assert dependents[..|dependents|] == dependents;
  }

  /** Counts the incoming edges of every package. */
  method InDegrees(names: seq<string>, graph: Graph) returns (inDeg: map<string, int>)
    requires Closed(names, graph)
    ensures Counts(names, graph, inDeg, {}, [])
  {
    inDeg := map name | name in names :: 0;
    for i := 0 to |names|
      invariant forall v | v in names :: v in inDeg
      invariant forall v | v in names ::
        inDeg[v] + Incoming(names[i..], graph, {}, v) == Incoming(names, graph, {}, v)
    {
      assert names[i..][1..] == names[i + 1..];
      inDeg := CountEdges(names, inDeg, graph[names[i]]);
    }
  }

  lemma ReleaseStarts(names: seq<string>, graph: Graph, inDeg: map<string, int>, q: seq<string>, out: seq<string>, n: string)
    requires Progress(names, graph, inDeg, [n] + q, out)
    ensures n in names && Queued(names, inDeg, q, out + [n])
    ensures Counts(names, graph, inDeg, Elements(out + [n]), graph[n])
    ensures forall v | v in out + [n] :: v !in graph[n]
    ensures PrefixClosed(graph, out + [n])
  {
    var done := Elements(out);
    assert out + ([n] + q) == out + [n] + q;
    assert (out + [n] + q)[|out|] == n;
    assert n !in done by {
      forall k | 0 <= k < |out| ensures out[k] != n {
        assert (out + [n] + q)[k] == out[k];
      }
    }
    assert Elements(out + [n]) == done + {n};
    forall v | v in names ensures inDeg[v] == Incoming(names, graph, done + {n}, v) + multiset(graph[n])[v] {
      IncomingDone(names, graph, done, n, v);
    }
    forall v | v in out + [n] ensures v !in graph[n] {
      assert v in out + [n] + q;
      IncomingZero(names, graph, done, v);
    }
    PlacedNext(names, graph, out, n);
  }

  /** Taking one edge off the degree it counts in. */
  lemma OneLess(names: seq<string>, graph: Graph, inDeg: map<string, int>, done: set<string>, v: string, rest: seq<string>)
    requires Closed(names, graph) && Counts(names, graph, inDeg, done, [v] + rest) && v in inDeg
    ensures Counts(names, graph, inDeg[v := inDeg[v] - 1], done, rest)
  {
    assert multiset([v] + rest) == multiset{v} + multiset(rest);
  }

  /** A package whose last edge goes is queued; one with edges left is not. */
  lemma OneReleased(names: seq<string>, inDeg: map<string, int>, q: seq<string>, out: seq<string>, v: string)
    requires Queued(names, inDeg, q, out) && v in names && v !in out && inDeg[v] > 0
    ensures Queued(names, inDeg[v := inDeg[v] - 1], if inDeg[v] == 1 then q + [v] else q, out)
  {
    assert out + (q + [v]) == (out + q) + [v];
  }

  /** One edge less, out of a package that is placed: the degree was positive, and the queue follows it. */
  lemma ReleaseOne(names: seq<string>, graph: Graph, inDeg: map<string, int>, q: seq<string>, placed: seq<string>,
                   v: string, rest: seq<string>)
    requires Closed(names, graph) && v in names && v !in placed
    requires Queued(names, inDeg, q, placed) && Counts(names, graph, inDeg, Elements(placed), [v] + rest)
    ensures v in inDeg && Counts(names, graph, inDeg[v := inDeg[v] - 1], Elements(placed), rest)
    ensures Queued(names, inDeg[v := inDeg[v] - 1], if inDeg[v] == 1 then q + [v] else q, placed)
  {
    assert multiset([v] + rest)[v] >= 1;
    OneLess(names, graph, inDeg, Elements(placed), v, rest);
    OneReleased(names, inDeg, q, placed, v);
  }

  /** Removes the edges out of `n`, and queues what is left without incoming edges. */
  method Release(names: seq<string>, graph: Graph, inDeg0: map<string, int>, q0: seq<string>, out: seq<string>, n: string)
    returns (inDeg: map<string, int>, q: seq<string>)
    requires Progress(names, graph, inDeg0, [n] + q0, out)
    ensures Progress(names, graph, inDeg, q, out + [n])
  {
    ReleaseStarts(names, graph, inDeg0, q0, out, n);
    inDeg, q := inDeg0, q0;
    ghost var placed := out + [n];
    var dependents := graph[n];
    for k := 0 to |dependents|
      invariant Queued(names, inDeg, q, placed)
      invariant Counts(names, graph, inDeg, Elements(placed), dependents[k..])
    {
      var v := dependents[k];
      assert v in dependents && dependents[k..] == [v] + dependents[k + 1..];
      ReleaseOne(names, graph, inDeg, q, placed, v, dependents[k + 1..]);
      var degree := inDeg[v] - 1;
      inDeg := inDeg[v := degree];
      if degree == 0 {
        q := q + [v];
      }
    }
    assert dependents[|dependents|..] == [];
  }

  lemma PlacedNext(names: seq<string>, graph: Graph, out: seq<string>, n: string)
    requires Closed(names, graph) && PrefixClosed(graph, out) && Incoming(names, graph, Elements(out), n) == 0
    ensures PrefixClosed(graph, out + [n])
  {
    IncomingZero(names, graph, Elements(out), n);
    forall i, u | 0 <= i < |out + [n]| && u in graph && (out + [n])[i] in graph[u]
      ensures u in (out + [n])[..i]
    {
      if i < |out| {
        assert (out + [n])[..i] == out[..i];
      } else {
        assert (out + [n])[..i] == out;
      }
    }
  }

  /** Orders the packages so that dependencies come before dependents, unless there is a cycle. */
  method TopoSort(names: seq<string>, graph: Graph) returns (r: Sorted)
    requires Closed(names, graph)
    ensures r.Order? ==> IsOrder(r.names, names, graph)
    ensures r.CycleDetected? <==> exists c :: IsCycle(c, graph)
  {
    var inDeg := InDegrees(names, graph);
    var q := Roots(names, inDeg);
    var out: seq<string> := [];
    assert Elements(out) == {};
    assert out + q == q;
    while q != []
      invariant Progress(names, graph, inDeg, q, out)
      decreases |names| - |out|
    {
      PlacedFit(names, out, q);
      var n := q[0];
      assert [n] + q[1..] == q;
      inDeg, q := Release(names, graph, inDeg, q[1..], out, n);
      out := out + [n];
    }
    assert out + [] == out;
    if |out| != |names| {
      ghost var c := StuckCycle(names, graph, inDeg, out);
      return CycleDetected;
    }
    AllPlaced(names, out);
    CompleteIsOrder(names, graph, out);
    r := Order(out);
    forall c: seq<string> ensures !IsCycle(c, graph) {
      OrderHasNoCycle(out, names, graph, c);
    }
  }

  /** The packages that depend on no other, in package order. */
  method Roots(names: seq<string>, inDeg: map<string, int>) returns (q: seq<string>)
    requires Distinct(names) && forall v | v in names :: v in inDeg
    ensures Distinct(q) && forall v :: v in q <==> v in names && inDeg[v] == 0
  {
    q := [];
    for i := 0 to |names|
      invariant Distinct(q) && forall v :: v in q <==> v in names[..i] && inDeg[v] == 0
    {
      if inDeg[names[i]] == 0 {
        q := q + [names[i]];
      }
    }
    assert names[..|names|] == names;
  }

  // -------------------------------------------------------------------- counting

  lemma {:induction false} DistinctCount(s: seq<string>)
    requires Distinct(s)
    ensures |Elements(s)| == |s|
  {
    if s != [] {
      var front := s[..|s| - 1];
      DistinctCount(front);
      assert Elements(s) == Elements(front) + {s[|s| - 1]};
    }
  }

  lemma SubsetCount(a: set<string>, b: set<string>)
    requires a <= b
    ensures |a| <= |b|
    ensures |a| == |b| ==> a == b
  {
    assert b == a + (b - a);
  }

  lemma PlacedFit(names: seq<string>, out: seq<string>, q: seq<string>)
    requires Distinct(names) && Distinct(out + q) && forall v | v in out + q :: v in names
    ensures |out| + |q| <= |names|
  {
    DistinctCount(names);
    DistinctCount(out + q);
    SubsetCount(Elements(out + q), Elements(names));
  }

  lemma AllPlaced(names: seq<string>, out: seq<string>)
    requires Distinct(names) && Distinct(out) && |out| == |names| && forall v | v in out :: v in names
    ensures multiset(out) == multiset(names) && forall v :: v in out <==> v in names
  {
    DistinctCount(names);
    DistinctCount(out);
    SubsetCount(Elements(out), Elements(names));
    assert forall v :: v in out <==> v in Elements(out);
    assert forall v :: v in names <==> v in Elements(names);
    forall v ensures multiset(out)[v] == multiset(names)[v] {
      DistinctMultiplicity(out, v);
      DistinctMultiplicity(names, v);
    }
  }

  lemma {:induction false} DistinctMultiplicity(s: seq<string>, v: string)
    requires Distinct(s)
    ensures multiset(s)[v] == if v in s then 1 else 0
  {
    if s != [] {
      var front, last := s[..|s| - 1], s[|s| - 1];
      assert s == front + [last];
      DistinctMultiplicity(front, v);
    }
  }

  lemma {:induction false} PositionIs(s: seq<string>, i: nat)
    requires Distinct(s) && i < |s|
    ensures Position(s, s[i]) == i
  {
    var j := Position(s, s[i]);
    assert s[j] == s[i];
  }

  lemma CompleteIsOrder(names: seq<string>, graph: Graph, out: seq<string>)
    requires Closed(names, graph) && Distinct(out) && PrefixClosed(graph, out)
    requires multiset(out) == multiset(names) && forall v :: v in out <==> v in names
    ensures IsOrder(out, names, graph)
  {
    forall u, v | u in graph && v in graph[u]
      ensures u in out && v in out && Position(out, u) < Position(out, v)
    {
      var i := Position(out, v);
      assert u in out[..i];
      var k :| 0 <= k < i && out[..i][k] == u;
      PositionIs(out, k);
    }
  }

  // ---------------------------------------------------------------------- cycles

  lemma {:induction false} WalkGoesForward(order: seq<string>, names: seq<string>, graph: Graph, c: seq<string>, i: nat)
    requires IsOrder(order, names, graph) && IsCycle(c, graph) && 0 < i < |c|
    ensures c[0] in order && c[i] in order && Position(order, c[0]) < Position(order, c[i])
  {
    assert c[i - 1] in graph && c[i - 1 + 1] in graph[c[i - 1]];
    if i > 1 {
      WalkGoesForward(order, names, graph, c, i - 1);
    }
  }

  /** A forward order rules out every cycle. */
  lemma OrderHasNoCycle(order: seq<string>, names: seq<string>, graph: Graph, c: seq<string>)
    requires IsOrder(order, names, graph)
    ensures !IsCycle(c, graph)
  {
    if IsCycle(c, graph) {
      WalkGoesForward(order, names, graph, c, |c| - 1);
    }
  }

  /** Every remaining package has an edge from a remaining package. */
  ghost predicate Stuck(graph: Graph, remaining: set<string>) {
    forall v {:trigger HasSource(graph, remaining, v)} | v in remaining :: HasSource(graph, remaining, v)
  }

  ghost predicate HasSource(graph: Graph, remaining: set<string>, v: string) {
    exists u | u in remaining && u in graph :: v in graph[u]
  }

  lemma SomeRemain(names: seq<string>, out: seq<string>) returns (v: string)
    requires Distinct(names) && Distinct(out) && |out| != |names| && forall x | x in out :: x in names
    ensures v in names && v !in out
  {
    DistinctCount(names);
    DistinctCount(out);
    assert (forall x | x in names :: x in out) ==> Elements(names) == Elements(out);
    v :| v in names && v !in out;
  }

  /** When nothing is queued and packages are left, some of them form a cycle. */
  lemma StuckCycle(names: seq<string>, graph: Graph, inDeg: map<string, int>, out: seq<string>) returns (c: seq<string>)
    requires Progress(names, graph, inDeg, [], out) && |out| != |names|
    ensures IsCycle(c, graph)
  {
    assert out + [] == out;
    var remaining := Elements(names) - Elements(out);
    var first := SomeRemain(names, out);
    forall v | v in remaining ensures HasSource(graph, remaining, v) {
      assert v in names && v !in out;
      IncomingZero(names, graph, Elements(out), v);
    }
    c := WalkBack(graph, remaining, [first]);
  }

  /** A walk along edges through distinct remaining packages. */
  ghost predicate Walk(graph: Graph, remaining: set<string>, path: seq<string>) {
    && path != [] && Distinct(path) && (forall x | x in path :: x in remaining)
    && forall i | 0 <= i < |path| - 1 :: path[i] in graph && path[i + 1] in graph[path[i]]
  }

  lemma WalkFrom(graph: Graph, u: string, path: seq<string>)
    requires path != [] && u in graph && path[0] in graph[u]
    requires forall i | 0 <= i < |path| - 1 :: path[i] in graph && path[i + 1] in graph[path[i]]
    ensures var w := [u] + path; forall i | 0 <= i < |w| - 1 :: w[i] in graph && w[i + 1] in graph[w[i]]
  {
    var w := [u] + path;
    forall i | 0 <= i < |w| - 1 ensures w[i] in graph && w[i + 1] in graph[w[i]] {
      if i > 0 {
        assert path[i - 1] in graph && path[i - 1 + 1] in graph[path[i - 1]];
      }
    }
  }

  lemma ShorterThan(path: seq<string>, remaining: set<string>)
    requires Distinct(path) && forall x | x in path :: x in remaining
    ensures |path| <= |remaining|
  {
    DistinctCount(path);
    SubsetCount(Elements(path), remaining);
  }

  lemma ExtendWalk(graph: Graph, remaining: set<string>, u: string, path: seq<string>)
    requires Walk(graph, remaining, path) && u in remaining && u !in path && u in graph && path[0] in graph[u]
    ensures Walk(graph, remaining, [u] + path) && |path| < |remaining|
  {
    WalkFrom(graph, u, path);
    ShorterThan([u] + path, remaining);
  }

  lemma CloseWalk(graph: Graph, remaining: set<string>, u: string, path: seq<string>) returns (c: seq<string>)
    requires Walk(graph, remaining, path) && u in path && u in graph && path[0] in graph[u]
    ensures IsCycle(c, graph)
  {
    var k :| 0 <= k < |path| && path[k] == u;
    WalkFrom(graph, u, path[..k + 1]);
    c := [u] + path[..k + 1];
  }

  /** Going back along incoming edges must come to a package already on the walk. */
  lemma {:induction false} WalkBack(graph: Graph, remaining: set<string>, path: seq<string>) returns (c: seq<string>)
    requires Stuck(graph, remaining) && Walk(graph, remaining, path)
    ensures IsCycle(c, graph)
    decreases |remaining| - |path|
  {
    assert path[0] in path && HasSource(graph, remaining, path[0]);
    var u :| u in remaining && u in graph && path[0] in graph[u];
    if u in path {
      c := CloseWalk(graph, remaining, u, path);
    } else {
      ExtendWalk(graph, remaining, u, path);
      c := WalkBack(graph, remaining, [u] + path);
    }
  }

  /** Building the graph of distinct packages and sorting it. */
  method PublicationOrder(packages: seq<Package>) returns (graph: Graph, r: Sorted)
    requires Distinct(Names(packages))
    ensures IsGraphOf(graph, packages)
    ensures r.Order? ==> IsOrder(r.names, Names(packages), graph)
    ensures r.CycleDetected? <==> exists c :: IsCycle(c, graph)
  {
    graph := BuildGraph(packages);
    GraphIsClosed(packages, graph);
    r := TopoSort(Names(packages), graph);
  }
}
