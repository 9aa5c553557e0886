/** The worklist over the lockfile finds exactly what the shipped workspaces reach. */
module Closure {
  import opened Text
  import opened Lockfile
  import Sets

  /** `id.split("@workspace:")[1]`: what follows the first mark, up to a second one. */
  function WorkspaceDir(id: string): (r: Option<string>) {
    var mark := "@workspace:";
    var at := Find(id, mark);
    if at.None? then None else
      var rest := id[at.value + |mark|..];
      var again := Find(rest, mark);
      Some(if again.None? then rest else rest[..again.value])
  }

  datatype Kind = Local(dir: string) | Platform | Missing | Kept

  /** What the loop makes of a key that it sees for the first time. */
  function KindOf(w: World, key: string): Kind
    requires key in w.packages
  {
    var package := w.packages[key];
    var dir := WorkspaceDir(package.id);
    if dir.Some? then Local(dir.value)
    else if package.meta.platform then Platform
    else if package.id !in w.installed then Missing
    else Kept
  }

  /** The edges that visiting a key adds. */
  function Expand(w: World, key: string): (r: seq<Edge>)
    requires key in w.packages
  {
    match KindOf(w, key)
    case Local(dir) => if dir in w.workspaces then WorkspaceEdges(w.workspaces[dir]) else []
    case Kept => Edges(w.packages[key].meta, KeySegments(key))
    case _ => []
  }

  function WorkspaceEdges(workspace: Workspace): seq<Edge> {
    Edges(workspace.meta, [workspace.name])
  }

  /** The key an edge leads to; an empty key counts as none. */
  function Target(w: World, e: Edge): (r: Option<string>)
    ensures r.Some? ==> r.value in w.packages
  {
    var key := Resolve(w.packages, e.name, e.from);
    if key == Some("") then None else key
  }

  // ----- The search -----

  /** Keys seen, ids collected in order, and keys reported as not installed. */
  datatype Found = Found(visited: set<string>, ids: seq<string>, stale: seq<string>)

  const NOTHING := Found({}, [], [])

  /** The effect of the first visit to a key through an optional or a required edge. */
  function Visit(w: World, key: string, optional: bool, found: Found): Found
    requires key in w.packages
  {
    var id := w.packages[key].id;
    var kind := KindOf(w, key);
    Found(
      found.visited + {key},
      if kind == Kept && id !in found.ids then found.ids + [id] else found.ids,
      if kind == Missing && !optional then found.stale + [key] else found.stale)
  }

  predicate Fresh(w: World, e: Edge, found: Found) {
    Target(w, e).Some? && Target(w, e).value !in found.visited
  }

  function Unseen(w: World, found: Found): set<string> {
    w.packages.Keys - found.visited
  }

  lemma VisitShrinks(w: World, key: string, optional: bool, found: Found)
    requires key in w.packages && key !in found.visited
    ensures |Unseen(w, Visit(w, key, optional, found))| < |Unseen(w, found)|
  {
    assert Unseen(w, Visit(w, key, optional, found)) == Unseen(w, found) - {key};
  }

  /** The inner loop, last edge first, until the stack is empty. */
  function Drain(w: World, stack: seq<Edge>, found: Found): Found
    decreases |Unseen(w, found)|, |stack|
  {
    if stack == [] then found else
      var e, rest := stack[|stack| - 1], stack[..|stack| - 1];
      if Fresh(w, e, found) then
        var key := Target(w, e).value;
        VisitShrinks(w, key, e.optional, found);
        Drain(w, rest + Expand(w, key), Visit(w, key, e.optional, found))
      else Drain(w, rest, found)
  }

  function DrainAll(w: World, shipped: seq<string>, found: Found): Found
    requires forall dir | dir in shipped :: dir in w.workspaces
  {
    if shipped == [] then found
    else DrainAll(w, shipped[1..], Drain(w, WorkspaceEdges(w.workspaces[shipped[0]]), found))
  }

  method DrainStack(w: World, edges: seq<Edge>, start: Found) returns (found: Found)
    ensures found == Drain(w, edges, start)
  {
    var stack, visited, ids, stale := edges, start.visited, start.ids, start.stale;
    while stack != []
      invariant Drain(w, stack, Found(visited, ids, stale)) == Drain(w, edges, start)
      decreases |Unseen(w, Found(visited, ids, stale))|, |stack|
    {
      ghost var before := Found(visited, ids, stale);
      var next := stack[|stack| - 1];
      stack := stack[..|stack| - 1];
      var resolved := ResolveName(w.packages, next.name, next.from);
      if resolved.None? || resolved.value == "" || resolved.value in visited {
        continue;
      }
      var key := resolved.value;
      VisitShrinks(w, key, next.optional, before);
      ghost var expanded := stack + Expand(w, key);
      visited := visited + {key};
      var package := w.packages[key];
      var dir := WorkspaceDir(package.id);
      if dir.Some? {
        if dir.value in w.workspaces {
          stack := stack + WorkspaceEdges(w.workspaces[dir.value]);
        }
      } else if package.meta.platform {
      } else if package.id !in w.installed {
        if !next.optional {
          stale := stale + [key];
        }
      } else {
        stack := stack + Edges(package.meta, KeySegments(key));
        if package.id !in ids {
          ids := ids + [package.id];
        }
      }
      assert stack == expanded;
      assert Found(visited, ids, stale) == Visit(w, key, next.optional, before);
    }
    found := Found(visited, ids, stale);
  }

  // ----- What it should find -----

  ghost predicate LeadsTo(w: World, edges: seq<Edge>, key: string) {
    exists e :: e in edges && Target(w, e) == Some(key)
  }

  ghost predicate Needs(w: World, user: string, key: string) {
    user in w.packages && LeadsTo(w, Expand(w, user), key)
  }

  /** A chain of packages, the first needed by a root edge and each further one by its predecessor. */
  ghost predicate Chain(w: World, roots: seq<Edge>, path: seq<string>) {
    && path != []
    && LeadsTo(w, roots, path[0])
    && forall i | 0 <= i < |path| - 1 :: Needs(w, path[i], path[i + 1])
  }

  ghost predicate Reachable(w: World, roots: seq<Edge>, key: string) {
    exists path :: Chain(w, roots, path) && path[|path| - 1] == key
  }

  /** An edge that belongs to a shipped workspace or to something it reaches. */
  ghost predicate Live(w: World, roots: seq<Edge>, e: Edge) {
    e in roots || exists key :: key in w.packages && Reachable(w, roots, key) && e in Expand(w, key)
  }

  lemma ChainExtends(w: World, roots: seq<Edge>, path: seq<string>, key: string)
    requires Chain(w, roots, path) && Needs(w, path[|path| - 1], key)
    ensures Reachable(w, roots, key)
  {
    var longer := path + [key];
    forall i | 0 <= i < |longer| - 1
      ensures Needs(w, longer[i], longer[i + 1])
    {
      if i < |path| - 1 {
        assert Needs(w, path[i], path[i + 1]);
      }
    }
    assert Chain(w, roots, longer) && longer[|longer| - 1] == key;
  }

  lemma LiveEdgeReaches(w: World, roots: seq<Edge>, e: Edge)
    requires Live(w, roots, e) && Target(w, e).Some?
    ensures Reachable(w, roots, Target(w, e).value)
  {
    var key := Target(w, e).value;
    if e in roots {
      assert LeadsTo(w, roots, key);
      var path := [key];
      assert Chain(w, roots, path) && path[|path| - 1] == key;
    } else {
      var source :| source in w.packages && Reachable(w, roots, source) && e in Expand(w, source);
      var path :| Chain(w, roots, path) && path[|path| - 1] == source;
      assert LeadsTo(w, Expand(w, source), key);
      ChainExtends(w, roots, path, key);
    }
  }

  ghost predicate Settled(w: World, e: Edge, found: Found) {
    Target(w, e).None? || Target(w, e).value in found.visited
  }

  /** Every key seen is reachable and every edge waiting is live. */
  ghost predicate Sound(w: World, roots: seq<Edge>, stack: seq<Edge>, found: Found) {
    && (forall key | key in found.visited :: key in w.packages && Reachable(w, roots, key))
    && (forall e | e in stack :: Live(w, roots, e))
  }

  /** Every edge started with or added is waiting or leads to a key seen. */
  ghost predicate Complete(w: World, seeds: seq<Edge>, stack: seq<Edge>, found: Found) {
    && (forall e | e in seeds :: e in stack || Settled(w, e, found))
    && (forall key, e | key in found.visited && key in w.packages && e in Expand(w, key) ::
          e in stack || Settled(w, e, found))
  }

  predicate Distinct(s: seq<string>) {
    forall i, j | 0 <= i < j < |s| :: s[i] != s[j]
  }

  /** The collected ids are those of the packages kept so far, each once. */
  ghost predicate Collected(w: World, found: Found) {
    && Distinct(found.ids)
    && (forall key | key in found.visited && key in w.packages && KindOf(w, key) == Kept :: w.packages[key].id in found.ids)
    && (forall id | id in found.ids ::
          exists key :: key in found.visited && key in w.packages && KindOf(w, key) == Kept && w.packages[key].id == id)
  }

  ghost predicate Needed(w: World, roots: seq<Edge>, key: string, optional: bool) {
    exists e :: Live(w, roots, e) && Target(w, e) == Some(key) && e.optional == optional
  }

  /** A missing package seen so far was reported if it was first met through a required edge. */
  ghost predicate Reported(w: World, roots: seq<Edge>, found: Found) {
    && Distinct(found.stale)
    && (forall key | key in found.stale ::
          key in found.visited && key in w.packages && KindOf(w, key) == Missing && Needed(w, roots, key, false))
    && (forall key | key in found.visited && key in w.packages && KindOf(w, key) == Missing && key !in found.stale ::
          Needed(w, roots, key, true))
  }

  ghost predicate Inv(w: World, roots: seq<Edge>, seeds: seq<Edge>, stack: seq<Edge>, found: Found) {
    && Sound(w, roots, stack, found)
    && Complete(w, seeds, stack, found)
    && Collected(w, found)
    && Reported(w, roots, found)
  }

  // ----- Each visit keeps the invariant -----

  lemma SkipKeepsInv(w: World, roots: seq<Edge>, seeds: seq<Edge>, rest: seq<Edge>, e: Edge, found: Found)
    requires Inv(w, roots, seeds, rest + [e], found) && !Fresh(w, e, found)
    ensures Inv(w, roots, seeds, rest, found)
  {
    var stack := rest + [e];
    assert Settled(w, e, found);
    assert forall x | x in rest :: x in stack;
    assert forall x | x in stack :: x in rest || x == e;
  }

  lemma VisitIsSound(w: World, roots: seq<Edge>, rest: seq<Edge>, e: Edge, found: Found)
    requires Sound(w, roots, rest + [e], found) && Fresh(w, e, found)
    ensures
      var key := Target(w, e).value;
      Sound(w, roots, rest + Expand(w, key), Visit(w, key, e.optional, found))
  {
    var key := Target(w, e).value;
    assert e in rest + [e];
    LiveEdgeReaches(w, roots, e);
    var pushed := Expand(w, key);
    forall x | x in rest + pushed
      ensures Live(w, roots, x)
    {
      if x in rest {
        assert x in rest + [e];
      }
    }
  }

  lemma VisitIsComplete(w: World, seeds: seq<Edge>, rest: seq<Edge>, e: Edge, found: Found)
    requires Complete(w, seeds, rest + [e], found) && Fresh(w, e, found)
    ensures
      var key := Target(w, e).value;
      Complete(w, seeds, rest + Expand(w, key), Visit(w, key, e.optional, found))
  {
    var key := Target(w, e).value;
    var found' := Visit(w, key, e.optional, found);
    var stack, stack' := rest + [e], rest + Expand(w, key);
    forall x | x in stack || Settled(w, x, found)
      ensures x in stack' || Settled(w, x, found')
    {
      if x in stack && x !in rest {
        assert x == e;
      }
    }
  }

  lemma VisitCollects(w: World, key: string, optional: bool, found: Found)
    requires Collected(w, found) && key in w.packages
    ensures Collected(w, Visit(w, key, optional, found))
  {
    var found' := Visit(w, key, optional, found);
    forall id | id in found'.ids
      ensures exists k :: k in found'.visited && k in w.packages && KindOf(w, k) == Kept && w.packages[k].id == id
    {
      if id in found.ids {
        var k :| k in found.visited && k in w.packages && KindOf(w, k) == Kept && w.packages[k].id == id;
        assert k in found'.visited;
      } else {
        assert key in found'.visited;
      }
    }
  }

  lemma VisitReports(w: World, roots: seq<Edge>, e: Edge, found: Found)
    requires Reported(w, roots, found) && Fresh(w, e, found) && Live(w, roots, e)
    ensures Reported(w, roots, Visit(w, Target(w, e).value, e.optional, found))
  {
    var key := Target(w, e).value;
    assert Needed(w, roots, key, e.optional);
  }

  /** The edges of every shipped workspace. */
  function Roots(w: World, shipped: seq<string>): (r: seq<Edge>)
    requires forall dir | dir in shipped :: dir in w.workspaces
  {
    if shipped == [] then [] else WorkspaceEdges(w.workspaces[shipped[0]]) + Roots(w, shipped[1..])
  }

  lemma {:induction false} DrainKeepsInv(w: World, roots: seq<Edge>, seeds: seq<Edge>, stack: seq<Edge>, found: Found)
    requires Inv(w, roots, seeds, stack, found)
    ensures Inv(w, roots, seeds, [], Drain(w, stack, found))
    decreases |Unseen(w, found)|, |stack|
  {
    if stack != [] {
      var e, rest := stack[|stack| - 1], stack[..|stack| - 1];
      assert stack == rest + [e];
      if Fresh(w, e, found) {
        var key := Target(w, e).value;
        VisitShrinks(w, key, e.optional, found);
        VisitIsSound(w, roots, rest, e, found);
        VisitIsComplete(w, seeds, rest, e, found);
        VisitCollects(w, key, e.optional, found);
        VisitReports(w, roots, e, found);
        DrainKeepsInv(w, roots, seeds, rest + Expand(w, key), Visit(w, key, e.optional, found));
      } else {
        SkipKeepsInv(w, roots, seeds, rest, e, found);
        DrainKeepsInv(w, roots, seeds, rest, found);
      }
    }
  }

  lemma SeedKeepsInv(w: World, roots: seq<Edge>, seeds: seq<Edge>, edges: seq<Edge>, found: Found)
    requires Inv(w, roots, seeds, [], found) && forall e | e in edges :: e in roots
    ensures Inv(w, roots, seeds + edges, edges, found)
  {
  }

  lemma {:induction false} DrainAllKeepsInv(w: World, roots: seq<Edge>, seeds: seq<Edge>, shipped: seq<string>, found: Found)
    requires forall dir | dir in shipped :: dir in w.workspaces
    requires Inv(w, roots, seeds, [], found) && roots == seeds + Roots(w, shipped)
    ensures Inv(w, roots, roots, [], DrainAll(w, shipped, found))
    decreases |shipped|
  {
    if shipped == [] {
      assert seeds + [] == seeds;
    } else {
      var edges := WorkspaceEdges(w.workspaces[shipped[0]]);
      RootsRegroup(w, roots, seeds, edges, shipped);
      WorkspaceKeepsInv(w, roots, seeds, edges, found);
      DrainAllKeepsInv(w, roots, seeds + edges, shipped[1..], Drain(w, edges, found));
    }
  }

  lemma RootsRegroup(w: World, roots: seq<Edge>, seeds: seq<Edge>, edges: seq<Edge>, shipped: seq<string>)
    requires shipped != [] && (forall dir | dir in shipped :: dir in w.workspaces) && edges == WorkspaceEdges(w.workspaces[shipped[0]])
    requires roots == seeds + Roots(w, shipped)
    ensures roots == seeds + edges + Roots(w, shipped[1..]) && forall e | e in edges :: e in roots
  {
    EdgesRegroup(seeds, edges, Roots(w, shipped[1..]));
  }

  lemma EdgesRegroup(seeds: seq<Edge>, edges: seq<Edge>, later: seq<Edge>)
    ensures seeds + (edges + later) == seeds + edges + later
    ensures forall e | e in edges :: e in seeds + (edges + later)
  {
  }

  lemma WorkspaceKeepsInv(w: World, roots: seq<Edge>, seeds: seq<Edge>, edges: seq<Edge>, found: Found)
    requires Inv(w, roots, seeds, [], found) && forall e | e in edges :: e in roots
    ensures Inv(w, roots, seeds + edges, [], Drain(w, edges, found))
  {
    SeedKeepsInv(w, roots, seeds, edges, found);
    DrainKeepsInv(w, roots, seeds + edges, edges, found);
  }

  // ----- The result -----

  ghost predicate ReachesKept(w: World, roots: seq<Edge>, id: string) {
    exists key :: key in w.packages && Reachable(w, roots, key) && KindOf(w, key) == Kept && w.packages[key].id == id
  }

  ghost predicate ReachesMissing(w: World, roots: seq<Edge>, key: string) {
    key in w.packages && Reachable(w, roots, key) && KindOf(w, key) == Missing
  }

  /**
   * The keys visited are exactly the reachable ones; the ids are exactly those of reachable installed packages, each
   * once; and what is reported missing is missing and required.
   */
  ghost predicate Exact(w: World, roots: seq<Edge>, found: Found) {
    && (forall key :: key in found.visited <==> Reachable(w, roots, key))
    && (forall id :: id in found.ids <==> ReachesKept(w, roots, id))
    && Distinct(found.ids)
    && Distinct(found.stale)
    && (forall key | key in found.stale :: ReachesMissing(w, roots, key) && Needed(w, roots, key, false))
    && (forall key | ReachesMissing(w, roots, key) && key !in found.stale :: Needed(w, roots, key, true))
  }

  lemma NeededIsVisited(w: World, roots: seq<Edge>, found: Found, user: string, key: string)
    requires Complete(w, roots, [], found) && user in found.visited && Needs(w, user, key)
    ensures key in found.visited
  {
    var e :| e in Expand(w, user) && Target(w, e) == Some(key);
    assert Settled(w, e, found);
  }

  lemma {:induction false} ChainIsVisited(w: World, roots: seq<Edge>, found: Found, path: seq<string>, i: nat)
    requires Complete(w, roots, [], found) && Chain(w, roots, path) && i < |path|
    ensures path[i] in found.visited
  {
    if i == 0 {
      var e :| e in roots && Target(w, e) == Some(path[0]);
      assert Settled(w, e, found);
    } else {
      var j := i - 1;
      ChainIsVisited(w, roots, found, path, j);
      assert Needs(w, path[j], path[j + 1]);
      NeededIsVisited(w, roots, found, path[j], path[i]);
    }
  }

  lemma DrainedIsExact(w: World, roots: seq<Edge>, found: Found)
    requires Inv(w, roots, roots, [], found)
    ensures Exact(w, roots, found)
  {
    forall key | Reachable(w, roots, key)
      ensures key in found.visited
    {
      var path :| Chain(w, roots, path) && path[|path| - 1] == key;
      ChainIsVisited(w, roots, found, path, |path| - 1);
    }
    forall id | id in found.ids
      ensures ReachesKept(w, roots, id)
    {
      var key :| key in found.visited && key in w.packages && KindOf(w, key) == Kept && w.packages[key].id == id;
    }
  }

  /** The whole search computes the closure of the shipped workspaces, or fails because one is not in the lockfile. */
  method CollectNotices(w: World, shipped: seq<string>) returns (r: Option<Found>)
    ensures r.Some? <==> forall dir | dir in shipped :: dir in w.workspaces
    ensures r.Some? ==> r.value == DrainAll(w, shipped, NOTHING)
    ensures r.Some? ==> Exact(w, Roots(w, shipped), r.value)
  {
    var found := NOTHING;
    for i := 0 to |shipped|
      invariant forall dir | dir in shipped[..i] :: dir in w.workspaces
      invariant (forall dir | dir in shipped :: dir in w.workspaces) ==>
        DrainAll(w, shipped[i..], found) == DrainAll(w, shipped, NOTHING)
    {
      if shipped[i] !in w.workspaces {
        return None;
      }
      found := DrainStack(w, WorkspaceEdges(w.workspaces[shipped[i]]), found);
      assert shipped[i..][0] == shipped[i] && shipped[i..][1..] == shipped[i + 1..];
      assert shipped[..i + 1] == shipped[..i] + [shipped[i]];
    }
    assert shipped[..|shipped|] == shipped;
    var roots := Roots(w, shipped);
    assert [] + roots == roots;
    DrainAllKeepsInv(w, roots, [], shipped, NOTHING);
    DrainedIsExact(w, roots, found);
    return Some(found);
  }

  // ----- The order of the lockfile's lists does not matter -----

  ghost predicate SameNames(a: seq<string>, b: seq<string>) {
    forall name :: name in a <==> name in b
  }

  ghost predicate SameMeta(a: Meta, b: Meta) {
    && SameNames(a.dependencies, b.dependencies)
    && SameNames(a.peers, b.peers)
    && SameNames(a.optionalPeers, b.optionalPeers)
    && SameNames(a.optional, b.optional)
    && a.platform == b.platform
  }

  /** The same lockfile with its lists written in any order. */
  ghost predicate Reordered(w: World, v: World) {
    && w.installed == v.installed
    && w.packages.Keys == v.packages.Keys
    && (forall key | key in w.packages ::
          w.packages[key].id == v.packages[key].id && SameMeta(w.packages[key].meta, v.packages[key].meta))
    && w.workspaces.Keys == v.workspaces.Keys
    && (forall dir | dir in w.workspaces ::
          w.workspaces[dir].name == v.workspaces[dir].name && SameMeta(w.workspaces[dir].meta, v.workspaces[dir].meta))
  }

  lemma ReorderedBack(w: World, v: World)
    requires Reordered(w, v)
    ensures Reordered(v, w)
  {
  }

  lemma SameEdges(a: Meta, b: Meta, from: seq<string>, e: Edge)
    requires SameMeta(a, b) && e in Edges(a, from)
    ensures e in Edges(b, from)
  {
  }

  lemma SameExpansion(w: World, v: World, key: string, e: Edge)
    requires Reordered(w, v) && key in w.packages && e in Expand(w, key)
    ensures e in Expand(v, key)
  {
    assert KindOf(w, key) == KindOf(v, key);
    match KindOf(w, key)
    case Local(dir) =>
      SameEdges(w.workspaces[dir].meta, v.workspaces[dir].meta, [w.workspaces[dir].name], e);
    case Kept =>
      SameEdges(w.packages[key].meta, v.packages[key].meta, KeySegments(key), e);
  }

  lemma {:induction false} SameResolution(a: map<string, Package>, b: map<string, Package>, name: string, from: seq<string>, depth: nat)
    requires a.Keys == b.Keys && depth <= |from|
    ensures ResolveFrom(a, name, from, depth) == ResolveFrom(b, name, from, depth)
  {
    assert KeyAt(name, from, depth) in a <==> KeyAt(name, from, depth) in b;
    if KeyAt(name, from, depth) !in a && depth > 0 {
      SameResolution(a, b, name, from, depth - 1);
    }
  }

  lemma SameLead(w: World, v: World, es: seq<Edge>, fs: seq<Edge>, key: string)
    requires Reordered(w, v) && LeadsTo(w, es, key) && forall e | e in es :: e in fs
    ensures LeadsTo(v, fs, key)
  {
    var e :| e in es && Target(w, e) == Some(key);
    SameResolution(w.packages, v.packages, e.name, e.from, |e.from|);
    assert Target(v, e) == Some(key);
  }

  lemma SameReach(w: World, v: World, roots: seq<Edge>, roots': seq<Edge>, key: string)
    requires Reordered(w, v) && (forall e | e in roots :: e in roots') && Reachable(w, roots, key)
    ensures Reachable(v, roots', key)
  {
    var path :| Chain(w, roots, path) && path[|path| - 1] == key;
    SameLead(w, v, roots, roots', path[0]);
    forall i | 0 <= i < |path| - 1
      ensures Needs(v, path[i], path[i + 1])
    {
      var user := path[i];
      assert Needs(w, user, path[i + 1]);
      forall e | e in Expand(w, user)
        ensures e in Expand(v, user)
      {
        SameExpansion(w, v, user, e);
      }
      SameLead(w, v, Expand(w, user), Expand(v, user), path[i + 1]);
    }
    assert Chain(v, roots', path);
  }

  lemma {:induction false} SameRoots(w: World, v: World, shipped: seq<string>, shipped': seq<string>, e: Edge)
    requires Reordered(w, v) && (forall dir | dir in shipped :: dir in w.workspaces && dir in shipped')
    requires forall dir | dir in shipped' :: dir in v.workspaces
    requires e in Roots(w, shipped)
    ensures e in Roots(v, shipped')
  {
    var dir := shipped[0];
    var edges := WorkspaceEdges(w.workspaces[dir]);
    if e in edges {
      SameEdges(w.workspaces[dir].meta, v.workspaces[dir].meta, [w.workspaces[dir].name], e);
      RootsHave(v, shipped', dir, e);
    } else {
      assert Roots(w, shipped) == edges + Roots(w, shipped[1..]);
      SameRoots(w, v, shipped[1..], shipped', e);
    }
  }

  lemma {:induction false} RootsHave(w: World, shipped: seq<string>, dir: string, e: Edge)
    requires (forall d | d in shipped :: d in w.workspaces) && dir in shipped && e in WorkspaceEdges(w.workspaces[dir])
    ensures e in Roots(w, shipped)
  {
    if dir != shipped[0] {
      RootsHave(w, shipped[1..], dir, e);
    }
  }

  lemma RootsFollow(w: World, v: World, shipped: seq<string>, shipped': seq<string>)
    requires Reordered(w, v) && SameNames(shipped, shipped') && forall dir | dir in shipped :: dir in w.workspaces
    ensures forall dir | dir in shipped' :: dir in v.workspaces
    ensures forall e | e in Roots(w, shipped) :: e in Roots(v, shipped')
  {
    forall e | e in Roots(w, shipped)
      ensures e in Roots(v, shipped')
    {
      SameRoots(w, v, shipped, shipped', e);
    }
  }

  lemma ReorderedFindsAsMuch(w: World, v: World, roots: seq<Edge>, roots': seq<Edge>, found: Found, found': Found)
    requires Reordered(w, v) && forall e | e in roots :: e in roots'
    requires Exact(w, roots, found) && Exact(v, roots', found')
    ensures found.visited <= found'.visited
    ensures forall id | id in found.ids :: id in found'.ids
  {
    forall key | key in found.visited
      ensures key in found'.visited
    {
      SameReach(w, v, roots, roots', key);
    }
    forall id | id in found.ids
      ensures id in found'.ids
    {
      var key :| key in w.packages && Reachable(w, roots, key) && KindOf(w, key) == Kept && w.packages[key].id == id;
      SameReach(w, v, roots, roots', key);
      assert KindOf(v, key) == Kept;
      assert ReachesKept(v, roots', id);
    }
  }

  function IdSet(found: Found): set<string> {
    set id | id in found.ids
  }

  lemma ReorderedStartFindsAsMuch(w: World, v: World, shipped: seq<string>, shipped': seq<string>, found: Found, found': Found)
    requires Reordered(w, v) && SameNames(shipped, shipped') && forall dir | dir in shipped :: dir in w.workspaces
    requires forall dir | dir in shipped' :: dir in v.workspaces
    requires Exact(w, Roots(w, shipped), found) && Exact(v, Roots(v, shipped'), found')
    ensures found.visited <= found'.visited
    ensures IdSet(found) <= IdSet(found')
  {
    RootsFollow(w, v, shipped, shipped');
    ReorderedFindsAsMuch(w, v, Roots(w, shipped), Roots(v, shipped'), found, found');
  }

  /** Whatever order the lists and the shipped workspaces come in, the same keys are visited and the same ids collected. */
  lemma OrderDoesNotMatter(w: World, v: World, shipped: seq<string>, shipped': seq<string>, found: Found, found': Found)
    requires Reordered(w, v) && SameNames(shipped, shipped') && forall dir | dir in shipped :: dir in w.workspaces
    requires forall dir | dir in shipped' :: dir in v.workspaces
    requires Exact(w, Roots(w, shipped), found) && Exact(v, Roots(v, shipped'), found')
    ensures found.visited == found'.visited
    ensures IdSet(found) == IdSet(found')
  {
    ReorderedStartFindsAsMuch(w, v, shipped, shipped', found, found');
    ReorderedBack(w, v);
    ReorderedStartFindsAsMuch(v, w, shipped', shipped, found', found);
    Sets.MutualSubsets(found.visited, found'.visited);
    Sets.MutualSubsets(IdSet(found), IdSet(found'));
  }

  // ----- Which missing packages are reported -----

  /** Whatever is reachable is needed by a live edge. */
  lemma ReachableIsNeeded(w: World, roots: seq<Edge>, key: string)
    requires Reachable(w, roots, key)
    ensures Needed(w, roots, key, true) || Needed(w, roots, key, false)
  {
    var path :| Chain(w, roots, path) && path[|path| - 1] == key;
    if |path| == 1 {
      var e :| e in roots && Target(w, e) == Some(key);
      assert Live(w, roots, e);
      assert Needed(w, roots, key, e.optional);
    } else {
      var j := |path| - 2;
      assert Needs(w, path[j], path[j + 1]);
      var shorter := path[..j + 1];
      assert Chain(w, roots, shorter) && shorter[|shorter| - 1] == path[j];
      var e :| e in Expand(w, path[j]) && Target(w, e) == Some(key);
      assert Live(w, roots, e);
      assert Needed(w, roots, key, e.optional);
    }
  }

  /**
   * A missing package that is needed in one way only is reported exactly when that way is required. One needed in both
   * ways is reported or not depending on the order of the lists: see `ReportDependsOnTheOrder`.
   */
  lemma ReportIsExactUnlessNeededBothWays(w: World, roots: seq<Edge>, found: Found, key: string)
    requires Exact(w, roots, found) && ReachesMissing(w, roots, key)
    requires !(Needed(w, roots, key, true) && Needed(w, roots, key, false))
    ensures key in found.stale <==> Needed(w, roots, key, false)
    ensures key !in found.stale <==> Needed(w, roots, key, true)
  {
    ReachableIsNeeded(w, roots, key);
  }

  // A shipped workspace needs `a` and `b`; `a` requires `p`, for `b` it is optional, and it is not installed.

  const NONE := Meta([], [], [], [], false)

  function Sample(order: seq<string>): World {
    World(
      map[
        "a" := Package("a@1", NONE.(dependencies := ["p"])),
        "b" := Package("b@1", NONE.(optional := ["p"])),
        "p" := Package("p@1", NONE)
      ],
      map["w" := Workspace("s", NONE.(dependencies := order))],
      {"a@1", "b@1"})
  }

  lemma SampleKinds(w: World, order: seq<string>)
    requires w == Sample(order)
    ensures KindOf(w, "a") == KindOf(w, "b") == Kept && KindOf(w, "p") == Missing
  {
    assert WorkspaceDir("a@1") == WorkspaceDir("b@1") == WorkspaceDir("p@1") == None;
  }

  lemma Single(name: string)
    requires name == "a" || name == "b" || name == "p"
    ensures KeySegments(name) == [name]
  {
    KeySegmentsUndoJoin([name]);
  }

  /** From one level down, a name without a copy there resolves to the top level. */
  lemma SampleTarget(w: World, order: seq<string>, e: Edge)
    requires w == Sample(order) && |e.from| == 1 && |e.from[0]| == 1 && |e.name| == 1 && e.name in w.packages
    ensures Target(w, e) == Some(e.name)
  {
    var key := KeyAt(e.name, e.from, 1);
    assert e.from[..1] + [e.name] == [e.from[0], e.name];
    var path := [e.from[0], e.name];
    assert path[1..] == [e.name] && Join([e.name]) == e.name;
    assert key == Join(path) == path[0] + "/" + Join(path[1..]);
    assert e.from[..0] + [e.name] == [e.name];
    assert KeyAt(e.name, e.from, 0) == e.name;
  }

  lemma SampleEdges(w: World, order: seq<string>)
    requires w == Sample(order)
    ensures Expand(w, "a") == [Edge("p", ["a"], false)]
    ensures Expand(w, "b") == [Edge("p", ["b"], true)]
    ensures Expand(w, "p") == []
  {
    SampleKinds(w, order);
    Single("a");
    Single("b");
  }

  lemma {:induction false} WithoutNothing(names: seq<string>)
    ensures Without(names, []) == names
  {
    if names != [] {
      WithoutNothing(names[1..]);
    }
  }

  lemma SampleStart(order: seq<string>)
    requires order == ["a", "b"] || order == ["b", "a"]
    ensures WorkspaceEdges(Sample(order).workspaces["w"]) == [Edge(order[0], ["s"], false), Edge(order[1], ["s"], false)]
  {
    var w := Sample(order);
    var meta := w.workspaces["w"].meta;
    assert meta == NONE.(dependencies := order);
    assert Without([], order) == [] && order + [] == order;
    WithoutNothing(order);
    assert RequiredNames(meta) == order;
    assert order[1..] == [order[1]];
    assert EdgesTo(order[1..], ["s"], false) == [Edge(order[1], ["s"], false)];
  }

  lemma DrainFresh(w: World, rest: seq<Edge>, e: Edge, found: Found, key: string)
    requires Target(w, e) == Some(key) && key !in found.visited
    ensures Drain(w, rest + [e], found) == Drain(w, rest + Expand(w, key), Visit(w, key, e.optional, found))
  {
    var stack := rest + [e];
    assert stack[|stack| - 1] == e && stack[..|stack| - 1] == rest;
  }

  lemma DrainSeen(w: World, rest: seq<Edge>, e: Edge, found: Found, key: string)
    requires Target(w, e) == Some(key) && key in found.visited
    ensures Drain(w, rest + [e], found) == Drain(w, rest, found)
  {
    var stack := rest + [e];
    assert stack[|stack| - 1] == e && stack[..|stack| - 1] == rest;
  }

  /** Two packages need a missing third: the one that is taken first decides how it is met. */
  ghost predicate Fork(w: World, e1: Edge, e2: Edge, p1: Edge, p2: Edge, first: string, second: string, key: string) {
    && Target(w, e1) == Some(first) && Target(w, e2) == Some(second)
    && Target(w, p1) == Target(w, p2) == Some(key)
    && KindOf(w, first) == KindOf(w, second) == Kept && KindOf(w, key) == Missing
    && Expand(w, first) == [p1] && Expand(w, second) == [p2] && Expand(w, key) == []
    && first != second
  }

  lemma ForkStarts(w: World, e1: Edge, e2: Edge, p1: Edge, p2: Edge, first: string, second: string, key: string)
    requires Fork(w, e1, e2, p1, p2, first, second, key)
    ensures Drain(w, [e1, e2], NOTHING) == Drain(w, [e1], Visit(w, key, p2.optional, Visit(w, second, e2.optional, NOTHING)))
  {
    var f1 := Visit(w, second, e2.optional, NOTHING);
    assert [e1, e2] == [e1] + [e2];
    DrainFresh(w, [e1], e2, NOTHING, second);
    DrainFresh(w, [e1], p2, f1, key);
    assert [e1] + [] == [e1];
  }

  lemma ForkEnds(w: World, e1: Edge, e2: Edge, p1: Edge, p2: Edge, first: string, second: string, key: string, found: Found)
    requires Fork(w, e1, e2, p1, p2, first, second, key) && key in found.visited && first !in found.visited
    ensures Drain(w, [e1], found) == Visit(w, first, e1.optional, found)
  {
    var last := Visit(w, first, e1.optional, found);
    assert [] + [e1] == [e1] && [] + [p1] == [p1];
    DrainFresh(w, [], e1, found, first);
    DrainSeen(w, [], p1, last, key);
    assert Drain(w, [], last) == last;
  }

  lemma ForkRun(w: World, e1: Edge, e2: Edge, p1: Edge, p2: Edge, first: string, second: string, key: string)
    requires Fork(w, e1, e2, p1, p2, first, second, key)
    ensures key in Drain(w, [e1, e2], NOTHING).stale <==> !p2.optional
  {
    ForkStarts(w, e1, e2, p1, p2, first, second, key);
    ForkEnds(w, e1, e2, p1, p2, first, second, key, Visit(w, key, p2.optional, Visit(w, second, e2.optional, NOTHING)));
  }

  lemma SampleFork(w: World, first: string, second: string)
    requires (first == "a" && second == "b") || (first == "b" && second == "a")
    requires w == Sample([first, second])
    ensures Fork(w, Edge(first, ["s"], false), Edge(second, ["s"], false),
                 Edge("p", [first], first == "b"), Edge("p", [second], second == "b"), first, second, "p")
  {
    var order := [first, second];
    SampleKinds(w, order);
    SampleEdges(w, order);
    SampleTarget(w, order, Edge(first, ["s"], false));
    SampleTarget(w, order, Edge(second, ["s"], false));
    SampleTarget(w, order, Edge("p", [first], first == "b"));
    SampleTarget(w, order, Edge("p", [second], second == "b"));
  }

  lemma SampleRun(first: string, second: string)
    requires (first == "a" && second == "b") || (first == "b" && second == "a")
    ensures "p" in DrainAll(Sample([first, second]), ["w"], NOTHING).stale <==> second == "a"
  {
    var w := Sample([first, second]);
    var e1, e2 := Edge(first, ["s"], false), Edge(second, ["s"], false);
    SampleStart([first, second]);
    SampleFork(w, first, second);
    ForkRun(w, e1, e2, Edge("p", [first], first == "b"), Edge("p", [second], second == "b"), first, second, "p");
    OneWorkspace(w, "w", [e1, e2]);
  }

  lemma OneWorkspace(w: World, dir: string, edges: seq<Edge>)
    requires dir in w.workspaces && WorkspaceEdges(w.workspaces[dir]) == edges
    ensures DrainAll(w, [dir], NOTHING) == Drain(w, edges, NOTHING)
  {
    assert [dir][1..] == [];
    assert DrainAll(w, [], Drain(w, edges, NOTHING)) == Drain(w, edges, NOTHING);
  }

  lemma SampleReordered(order: seq<string>, order': seq<string>)
    requires SameNames(order, order')
    ensures Reordered(Sample(order), Sample(order'))
  {
    var w, v := Sample(order), Sample(order');
    assert w.packages == v.packages && w.workspaces.Keys == v.workspaces.Keys;
  }

  /**
   * Two ways to write the same lockfile: one reports the missing package that `a` requires, the other hides it because
   * the optional edge from `b` marks it visited first.
   */
  lemma ReportDependsOnTheOrder()
    ensures Reordered(Sample(["a", "b"]), Sample(["b", "a"]))
    ensures "p" in DrainAll(Sample(["b", "a"]), ["w"], NOTHING).stale
    ensures "p" !in DrainAll(Sample(["a", "b"]), ["w"], NOTHING).stale
  {
    SampleRun("a", "b");
    SampleRun("b", "a");
    SampleReordered(["a", "b"], ["b", "a"]);
  }
}
