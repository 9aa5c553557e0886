/**
 * The dependency closure said once more, from the lockfile's entries alone: what a package or a workspace needs, by name,
 * from where it sits.
 */
module Needing {
  import opened Text
  import opened Lockfile
  import opened Closure

  const MARK := "@workspace:"

  /** `s` is cut at its first mark. */
  ghost predicate FirstCut(s: string, before: string, after: string) {
    s == before + MARK + after && forall j: nat | j < |before| :: !OccursAt(s, MARK, j)
  }

  ghost predicate HasMark(s: string) {
    exists j: nat :: OccursAt(s, MARK, j)
  }

  /** The directory ends with the id, or where a second mark begins. */
  ghost predicate RestLinksTo(rest: string, dir: string) {
    if HasMark(rest) then exists later :: FirstCut(rest, dir, later) else dir == rest
  }

  /** The entry stands for a workspace of the repository: what follows the mark is its directory. */
  ghost predicate LinksTo(id: string, dir: string) {
    exists before, rest :: FirstCut(id, before, rest) && RestLinksTo(rest, dir)
  }

  /** The name is in one of the lists; an optional peer counts only if it is an optional dependency too. */
  ghost predicate Lists(meta: Meta, name: string, optional: bool) {
    if optional then name in meta.optional
    else (name in meta.dependencies || name in meta.peers) && name !in meta.optionalPeers
  }

  /** From `path`, the name means this entry: the innermost of the copies around it. */
  ghost predicate Means(w: World, path: seq<string>, name: string, key: string) {
    key != "" && exists depth: nat :: Nearest(w.packages, name, path, depth) && key == KeyAt(name, path, depth)
  }

  /** An installed package of the registry that is not bound to a platform. */
  ghost predicate IsKept(w: World, key: string) {
    && key in w.packages && !HasMark(w.packages[key].id)
    && !w.packages[key].meta.platform && w.packages[key].id in w.installed
  }

  ghost predicate IsMissing(w: World, key: string) {
    && key in w.packages && !HasMark(w.packages[key].id)
    && !w.packages[key].meta.platform && w.packages[key].id !in w.installed
  }

  ghost predicate WorkspaceNeeds(w: World, workspace: Workspace, key: string, optional: bool) {
    exists name :: Lists(workspace.meta, name, optional) && Means(w, [workspace.name], name, key)
  }

  /** A package needs what its own lists name, looked up from its own place; a link needs what its workspace needs. */
  ghost predicate PackageNeeds(w: World, user: string, key: string, optional: bool) {
    || (IsKept(w, user) &&
        exists name :: Lists(w.packages[user].meta, name, optional) && Means(w, KeySegments(user), name, key))
    || (user in w.packages &&
        exists dir :: LinksTo(w.packages[user].id, dir) && dir in w.workspaces && WorkspaceNeeds(w, w.workspaces[dir], key, optional))
  }

  ghost predicate ShippedNeeds(w: World, shipped: seq<string>, key: string, optional: bool) {
    exists dir :: dir in shipped && dir in w.workspaces && WorkspaceNeeds(w, w.workspaces[dir], key, optional)
  }

  /** A shipped workspace needs the first entry, and each entry the next. */
  ghost predicate NeedsChain(w: World, shipped: seq<string>, path: seq<string>) {
    && path != []
    && (ShippedNeeds(w, shipped, path[0], false) || ShippedNeeds(w, shipped, path[0], true))
    && forall i | 0 <= i < |path| - 1 :: PackageNeeds(w, path[i], path[i + 1], false) || PackageNeeds(w, path[i], path[i + 1], true)
  }

  ghost predicate IsNeeded(w: World, shipped: seq<string>, key: string) {
    exists path :: NeedsChain(w, shipped, path) && path[|path| - 1] == key
  }

  // ----- Links -----

  lemma MarkFound(s: string)
    ensures Find(s, MARK).Some? <==> HasMark(s)
  {
  }

  lemma CutIsFind(s: string, before: string, after: string)
    requires FirstCut(s, before, after)
    ensures Find(s, MARK) == Some(|before|) && s[|before| + |MARK|..] == after && s[..|before|] == before
  {
    assert s[|before|..|before| + |MARK|] == MARK;
    FindFromIs(s, MARK, 0, |before|);
  }

  lemma FindIsCut(s: string)
    requires Find(s, MARK).Some?
    ensures FirstCut(s, s[..Find(s, MARK).value], s[Find(s, MARK).value + |MARK|..])
  {
    var i := Find(s, MARK).value;
    assert s[i..i + |MARK|] == MARK;
    assert s == s[..i] + s[i..i + |MARK|] + s[i + |MARK|..];
  }

  /** What follows a mark, up to the next one. */
  lemma UpToTheNextMark(rest: string, dir: string)
    ensures RestLinksTo(rest, dir) <==>
            dir == (if Find(rest, MARK).None? then rest else rest[..Find(rest, MARK).value])
  {
    MarkFound(rest);
    if HasMark(rest) {
      FindIsCut(rest);
      if later :| FirstCut(rest, dir, later) {
        CutIsFind(rest, dir, later);
      }
    }
  }

  lemma LinkHasItsDir(id: string, before: string, rest: string, dir: string)
    requires FirstCut(id, before, rest) && RestLinksTo(rest, dir)
    ensures WorkspaceDir(id) == Some(dir)
  {
    CutIsFind(id, before, rest);
    UpToTheNextMark(rest, dir);
  }

  lemma DirIsLinked(id: string)
    requires Find(id, MARK).Some?
    ensures var i := Find(id, MARK).value;
            FirstCut(id, id[..i], id[i + |MARK|..]) && WorkspaceDir(id).Some? && RestLinksTo(id[i + |MARK|..], WorkspaceDir(id).value)
  {
    FindIsCut(id);
    UpToTheNextMark(id[Find(id, MARK).value + |MARK|..], WorkspaceDir(id).value);
  }

  lemma LinkIsWorkspaceDir(id: string, dir: string)
    ensures LinksTo(id, dir) <==> WorkspaceDir(id) == Some(dir)
    ensures HasMark(id) <==> WorkspaceDir(id).Some?
  {
    MarkFound(id);
    if before, rest :| FirstCut(id, before, rest) && RestLinksTo(rest, dir) {
      LinkHasItsDir(id, before, rest, dir);
    }
    if HasMark(id) {
      DirIsLinked(id);
    }
  }

  // ----- Names -----

  lemma NearestIsOne(packages: map<string, Package>, name: string, path: seq<string>, a: nat, b: nat)
    requires Nearest(packages, name, path, a) && Nearest(packages, name, path, b)
    ensures a == b
  {
  }

  lemma MeansIsTarget(w: World, e: Edge, key: string)
    ensures Means(w, e.from, e.name, key) <==> Target(w, e) == Some(key)
  {
    ResolvesToTheNearestCopy(w.packages, e.name, e.from);
    var r := Resolve(w.packages, e.name, e.from);
    if Means(w, e.from, e.name, key) {
      var depth: nat :| Nearest(w.packages, e.name, e.from, depth) && key == KeyAt(e.name, e.from, depth);
      assert r.Some?;
      var d: nat :| Nearest(w.packages, e.name, e.from, d) && r.value == KeyAt(e.name, e.from, d);
      NearestIsOne(w.packages, e.name, e.from, depth, d);
    }
  }

  lemma EdgesLead(w: World, meta: Meta, from: seq<string>, key: string, optional: bool)
    ensures (exists e :: e in Edges(meta, from) && e.optional == optional && Target(w, e) == Some(key)) <==>
            exists name :: Lists(meta, name, optional) && Means(w, from, name, key)
  {
    if e :| e in Edges(meta, from) && e.optional == optional && Target(w, e) == Some(key) {
      MeansIsTarget(w, e, key);
      assert Lists(meta, e.name, optional);
    }
    if name :| Lists(meta, name, optional) && Means(w, from, name, key) {
      var e := Edge(name, from, optional);
      assert e in Edges(meta, from);
      MeansIsTarget(w, e, key);
    }
  }

  // ----- One step of the search -----

  ghost predicate Leads(w: World, edges: seq<Edge>, key: string, optional: bool) {
    exists e :: e in edges && e.optional == optional && Target(w, e) == Some(key)
  }

  lemma KindIsWhatItSays(w: World, key: string)
    requires key in w.packages
    ensures KindOf(w, key) == Kept <==> IsKept(w, key)
    ensures KindOf(w, key) == Missing <==> IsMissing(w, key)
    ensures forall dir :: KindOf(w, key) == Local(dir) <==> LinksTo(w.packages[key].id, dir)
  {
    var id := w.packages[key].id;
    forall dir
      ensures LinksTo(id, dir) <==> WorkspaceDir(id) == Some(dir)
      ensures HasMark(id) <==> WorkspaceDir(id).Some?
    {
      LinkIsWorkspaceDir(id, dir);
    }
    LinkIsWorkspaceDir(id, "");
  }

  /** Visiting an entry adds edges to exactly what it needs. */
  lemma ExpandsToItsNeeds(w: World, user: string, key: string, optional: bool)
    requires user in w.packages
    ensures Leads(w, Expand(w, user), key, optional) <==> PackageNeeds(w, user, key, optional)
  {
    KindIsWhatItSays(w, user);
    match KindOf(w, user)
    case Local(dir) =>
      if dir in w.workspaces {
        EdgesLead(w, w.workspaces[dir].meta, [w.workspaces[dir].name], key, optional);
      }
    case Kept =>
      EdgesLead(w, w.packages[user].meta, KeySegments(user), key, optional);
    case _ =>
  }

  /** A package at a path of package names looks its dependencies up from exactly there. */
  lemma NestedPackageNeeds(w: World, path: seq<string>, key: string, optional: bool)
    requires (forall s | s in path :: PackageName(s)) && IsKept(w, Join(path))
    ensures PackageNeeds(w, Join(path), key, optional) <==>
            exists name :: Lists(w.packages[Join(path)].meta, name, optional) && Means(w, path, name, key)
  {
    KeySegmentsUndoJoin(path);
    KindIsWhatItSays(w, Join(path));
  }

  lemma {:induction false} RootsLead(w: World, shipped: seq<string>, key: string, optional: bool)
    requires forall dir | dir in shipped :: dir in w.workspaces
    ensures Leads(w, Roots(w, shipped), key, optional) <==> ShippedNeeds(w, shipped, key, optional)
  {
    if shipped != [] {
      var workspace := w.workspaces[shipped[0]];
      RootsLead(w, shipped[1..], key, optional);
      EdgesLead(w, workspace.meta, [workspace.name], key, optional);
      assert shipped == [shipped[0]] + shipped[1..];
    }
  }

  lemma LeadsEitherWay(w: World, edges: seq<Edge>, key: string)
    ensures LeadsTo(w, edges, key) <==> Leads(w, edges, key, false) || Leads(w, edges, key, true)
  {
  }

  // ----- The whole search -----

  lemma {:induction false} ChainIsNeedsChain(w: World, shipped: seq<string>, path: seq<string>)
    requires forall dir | dir in shipped :: dir in w.workspaces
    ensures Chain(w, Roots(w, shipped), path) <==> NeedsChain(w, shipped, path)
  {
    var roots := Roots(w, shipped);
    if path != [] {
      LeadsEitherWay(w, roots, path[0]);
      RootsLead(w, shipped, path[0], false);
      RootsLead(w, shipped, path[0], true);
    }
    forall i | 0 <= i < |path| - 1
      ensures Closure.Needs(w, path[i], path[i + 1]) <==>
              PackageNeeds(w, path[i], path[i + 1], false) || PackageNeeds(w, path[i], path[i + 1], true)
    {
      StepIsNeed(w, path[i], path[i + 1]);
    }
  }

  lemma StepIsNeed(w: World, user: string, key: string)
    ensures Closure.Needs(w, user, key) <==> PackageNeeds(w, user, key, false) || PackageNeeds(w, user, key, true)
  {
    if user in w.packages {
      LeadsEitherWay(w, Expand(w, user), key);
      ExpandsToItsNeeds(w, user, key, false);
      ExpandsToItsNeeds(w, user, key, true);
    }
  }

  lemma ReachableIsNeeded(w: World, shipped: seq<string>, key: string)
    requires forall dir | dir in shipped :: dir in w.workspaces
    ensures Reachable(w, Roots(w, shipped), key) <==> IsNeeded(w, shipped, key)
  {
    if path :| Chain(w, Roots(w, shipped), path) && path[|path| - 1] == key {
      ChainIsNeedsChain(w, shipped, path);
    }
    if path :| NeedsChain(w, shipped, path) && path[|path| - 1] == key {
      ChainIsNeedsChain(w, shipped, path);
    }
  }

  /** A shipped workspace or something needed asks for the key, as one it requires or as an optional one. */
  ghost predicate IsAskedFor(w: World, shipped: seq<string>, key: string, optional: bool) {
    ShippedNeeds(w, shipped, key, optional) || exists user :: IsNeeded(w, shipped, user) && PackageNeeds(w, user, key, optional)
  }

  lemma NeededIsAskedFor(w: World, shipped: seq<string>, key: string, optional: bool)
    requires (forall dir | dir in shipped :: dir in w.workspaces) && Needed(w, Roots(w, shipped), key, optional)
    ensures IsAskedFor(w, shipped, key, optional)
  {
    var roots := Roots(w, shipped);
    var e :| Live(w, roots, e) && Target(w, e) == Some(key) && e.optional == optional;
    if e in roots {
      RootsLead(w, shipped, key, optional);
    } else {
      var user :| user in w.packages && Reachable(w, roots, user) && e in Expand(w, user);
      ReachableIsNeeded(w, shipped, user);
      assert Leads(w, Expand(w, user), key, optional);
      ExpandsToItsNeeds(w, user, key, optional);
    }
  }

  /**
   * The search visits exactly what is needed and collects exactly the ids of what is kept of it. What it reports is
   * missing and required, and what is missing and not reported is optional for somebody.
   */
  lemma CollectsWhatIsNeeded(w: World, shipped: seq<string>, found: Found)
    requires (forall dir | dir in shipped :: dir in w.workspaces) && Exact(w, Roots(w, shipped), found)
    ensures forall key :: key in found.visited <==> IsNeeded(w, shipped, key)
    ensures forall id :: id in found.ids <==>
      exists key :: IsNeeded(w, shipped, key) && IsKept(w, key) && w.packages[key].id == id
    ensures forall key | key in found.stale :: IsNeeded(w, shipped, key) && IsMissing(w, key) && IsAskedFor(w, shipped, key, false)
    ensures forall key | IsNeeded(w, shipped, key) && IsMissing(w, key) && key !in found.stale :: IsAskedFor(w, shipped, key, true)
  {
    var roots := Roots(w, shipped);
    forall key
      ensures Reachable(w, roots, key) <==> IsNeeded(w, shipped, key)
      ensures key in w.packages ==> (KindOf(w, key) == Kept <==> IsKept(w, key)) && (KindOf(w, key) == Missing <==> IsMissing(w, key))
    {
      ReachableIsNeeded(w, shipped, key);
      if key in w.packages {
        KindIsWhatItSays(w, key);
      }
    }
    forall id
      ensures ReachesKept(w, roots, id) <==> exists key :: IsNeeded(w, shipped, key) && IsKept(w, key) && w.packages[key].id == id
    {
      KeptIsCollected(w, shipped, id);
    }
    forall key | key in found.stale
      ensures IsAskedFor(w, shipped, key, false)
    {
      NeededIsAskedFor(w, shipped, key, false);
    }
    forall key | IsNeeded(w, shipped, key) && IsMissing(w, key) && key !in found.stale
      ensures IsAskedFor(w, shipped, key, true)
    {
      assert ReachesMissing(w, roots, key);
      NeededIsAskedFor(w, shipped, key, true);
    }
  }

  lemma KeptIsCollected(w: World, shipped: seq<string>, id: string)
    requires forall dir | dir in shipped :: dir in w.workspaces
    ensures ReachesKept(w, Roots(w, shipped), id) <==>
            exists key :: IsNeeded(w, shipped, key) && IsKept(w, key) && w.packages[key].id == id
  {
    var roots := Roots(w, shipped);
    if key :| key in w.packages && Reachable(w, roots, key) && KindOf(w, key) == Kept && w.packages[key].id == id {
      ReachableIsNeeded(w, shipped, key);
      KindIsWhatItSays(w, key);
    }
    if key :| IsNeeded(w, shipped, key) && IsKept(w, key) && w.packages[key].id == id {
      ReachableIsNeeded(w, shipped, key);
      KindIsWhatItSays(w, key);
    }
  }
}
