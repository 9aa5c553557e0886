/** The shipped dependency closure of a lockfile: scoped name resolution and a worklist search. */
module Lockfile {
  import opened Text

  // ----- Keys: package names nested by path -----

  function Join(segments: seq<string>): string {
    if segments == [] then "" else if |segments| == 1 then segments[0] else segments[0] + "/" + Join(segments[1..])
  }

  /** How long the leading run of characters other than a slash is. */
  function Run(s: string): (n: nat)
    ensures n <= |s|
    ensures forall i | 0 <= i < n :: s[i] != '/'
    ensures n < |s| ==> s[n] == '/'
  {
    if s == [] || s[0] == '/' then 0 else 1 + Run(s[1..])
  }

  /** The next match of `@[^/]+\/[^/]+|[^/]+` in a string that does not start with a slash. */
  function MatchLength(s: string): (n: nat)
    requires s != [] && s[0] != '/'
    ensures 0 < n <= |s|
  {
    var n := Run(s);
    if s[0] == '@' && n >= 2 && n + 1 < |s| && s[n + 1] != '/' then n + 1 + Run(s[n + 1..]) else n
  }

  /** Every match, left to right. */
  function KeySegments(key: string): seq<string>
    decreases |key|
  {
    if key == [] then []
    else if key[0] == '/' then KeySegments(key[1..])
    else [key[..MatchLength(key)]] + KeySegments(key[MatchLength(key)..])
  }

  predicate PlainName(s: string) {
    s != [] && '/' !in s
  }

  /** A package name: unscoped, or `@scope/name`. */
  ghost predicate PackageName(s: string) {
    || (PlainName(s) && s[0] != '@')
    || exists scope, name :: PlainName(scope) && PlainName(name) && s == "@" + scope + "/" + name
  }

  lemma RunIs(s: string, n: nat)
    requires n <= |s| && (forall i | 0 <= i < n :: s[i] != '/') && (n < |s| ==> s[n] == '/')
    ensures Run(s) == n
  {
  }

  lemma MatchTakesScoped(scope: string, name: string, rest: string)
    requires PlainName(scope) && PlainName(name) && (rest == [] || rest[0] == '/')
    ensures MatchLength("@" + scope + "/" + name + rest) == |scope| + |name| + 2
  {
    var t, n := "@" + scope + "/" + name + rest, 1 + |scope|;
    assert t[0] == '@' && t[n] == '/' && t[n + 1] == name[0];
    assert forall i | 0 < i < n :: t[i] == scope[i - 1];
    RunIs(t, n);
    assert t[n + 1..] == name + rest;
    RunIs(t[n + 1..], |name|);
  }

  lemma MatchTakesTheName(s: string, rest: string)
    requires PackageName(s) && (rest == [] || rest[0] == '/')
    ensures s[0] != '/' && MatchLength(s + rest) == |s|
  {
    if PlainName(s) && s[0] != '@' {
      RunIs(s + rest, |s|);
    } else {
      var scope, name :| PlainName(scope) && PlainName(name) && s == "@" + scope + "/" + name;
      MatchTakesScoped(scope, name, rest);
    }
  }

  /** Splitting a key undoes joining package names. */
  lemma {:induction false} KeySegmentsUndoJoin(segments: seq<string>)
    requires forall s | s in segments :: PackageName(s)
    ensures KeySegments(Join(segments)) == segments
  {
    if segments != [] {
      var s, key := segments[0], Join(segments);
      assert s in segments;
      var rest := if |segments| == 1 then "" else "/" + Join(segments[1..]);
      assert key == s + rest;
      MatchTakesTheName(s, rest);
      assert key[..|s|] == s && key[|s|..] == rest;
      if |segments| > 1 {
        assert rest[1..] == Join(segments[1..]);
      }
      KeySegmentsUndoJoin(segments[1..]);
    }
  }

  // ----- The lockfile -----

  /** A workspace's or package's dependency lists, each in the order of its object keys. */
  datatype Meta = Meta(
    dependencies: seq<string>,
    peers: seq<string>,
    optionalPeers: seq<string>,
    optional: seq<string>,
    platform: bool)

  datatype Package = Package(id: string, meta: Meta)

  datatype Workspace = Workspace(name: string, meta: Meta)

  /** The parsed lockfile, and the ids `name@version` that have a directory on disk. */
  datatype World = World(packages: map<string, Package>, workspaces: map<string, Workspace>, installed: set<string>)

  // ----- Name resolution -----

  function KeyAt(name: string, from: seq<string>, depth: nat): string
    requires depth <= |from|
  {
    Join(from[..depth] + [name])
  }

  /** The copy of `name` that a package at path `from` sees, looking from `depth` outwards. */
  function ResolveFrom(packages: map<string, Package>, name: string, from: seq<string>, depth: nat): (r: Option<string>)
    requires depth <= |from|
    ensures r.Some? ==> r.value in packages
    decreases depth
  {
    if KeyAt(name, from, depth) in packages then Some(KeyAt(name, from, depth))
    else if depth == 0 then None
    else ResolveFrom(packages, name, from, depth - 1)
  }

  function Resolve(packages: map<string, Package>, name: string, from: seq<string>): (r: Option<string>)
    ensures r.Some? ==> r.value in packages
  {
    ResolveFrom(packages, name, from, |from|)
  }

  method ResolveName(packages: map<string, Package>, name: string, from: seq<string>) returns (r: Option<string>)
    ensures r == Resolve(packages, name, from)
  {
    var depth: int := |from|;
    while depth >= 0
      invariant -1 <= depth <= |from|
      invariant if depth >= 0 then Resolve(packages, name, from) == ResolveFrom(packages, name, from, depth)
                else Resolve(packages, name, from) == None
    {
      var key := KeyAt(name, from, depth);
      if key in packages {
        return Some(key);
      }
      depth := depth - 1;
    }
    return None;
  }

  /** `depth` is the innermost level of `from` that has its own copy of `name`. */
  ghost predicate Nearest(packages: map<string, Package>, name: string, from: seq<string>, depth: nat) {
    && depth <= |from|
    && KeyAt(name, from, depth) in packages
    && forall deeper: nat | depth < deeper <= |from| :: KeyAt(name, from, deeper) !in packages
  }

  lemma {:induction false} ResolveFromIsNearest(packages: map<string, Package>, name: string, from: seq<string>, depth: nat)
    requires depth <= |from|
    requires forall deeper: nat | depth < deeper <= |from| :: KeyAt(name, from, deeper) !in packages
    ensures
      var r := ResolveFrom(packages, name, from, depth);
      if r.Some? then exists d: nat :: Nearest(packages, name, from, d) && r.value == KeyAt(name, from, d)
      else forall d: nat | d <= |from| :: KeyAt(name, from, d) !in packages
  {
    if KeyAt(name, from, depth) in packages {
      assert Nearest(packages, name, from, depth);
    } else if depth > 0 {
      ResolveFromIsNearest(packages, name, from, depth - 1);
    }
  }

  /**
   * A name resolves to the nearest enclosing copy and to nothing only when no level has one; for package names the key
   * splits back into that level's path, so the copy's own dependencies are looked up from where it sits.
   */
  lemma ResolvesToTheNearestCopy(packages: map<string, Package>, name: string, from: seq<string>)
    ensures
      var r := Resolve(packages, name, from);
      if r.None? then forall d: nat | d <= |from| :: KeyAt(name, from, d) !in packages
      else exists d: nat :: Nearest(packages, name, from, d) && r.value == KeyAt(name, from, d)
    ensures
      var r := Resolve(packages, name, from);
      r.Some? && PackageName(name) && (forall s | s in from :: PackageName(s)) ==>
        exists d: nat | d <= |from| :: Nearest(packages, name, from, d) && KeySegments(r.value) == from[..d] + [name]
  {
    ResolveFromIsNearest(packages, name, from, |from|);
    var r := Resolve(packages, name, from);
    if r.Some? && PackageName(name) && forall s | s in from :: PackageName(s) {
      var d: nat :| Nearest(packages, name, from, d) && r.value == KeyAt(name, from, d);
      KeySegmentsUndoJoin(from[..d] + [name]);
    }
  }

  // ----- Edges -----

  datatype Edge = Edge(name: string, from: seq<string>, optional: bool)

  /** The keys of the two lists spread into one object, without the optional peers. */
  function RequiredNames(meta: Meta): seq<string> {
    Without(meta.dependencies + Without(meta.peers, meta.dependencies), meta.optionalPeers)
  }

  function Without(names: seq<string>, dropped: seq<string>): (r: seq<string>)
    ensures forall name :: name in r <==> name in names && name !in dropped
  {
    if names == [] then []
    else (if names[0] in dropped then [] else [names[0]]) + Without(names[1..], dropped)
  }

  function EdgesTo(names: seq<string>, from: seq<string>, optional: bool): (r: seq<Edge>)
    ensures forall e :: e in r <==> e.from == from && e.optional == optional && e.name in names
  {
    if names == [] then [] else [Edge(names[0], from, optional)] + EdgesTo(names[1..], from, optional)
  }

  /** A peer that is also optional makes no edge, even when it is a dependency too. */
  function Edges(meta: Meta, from: seq<string>): (r: seq<Edge>)
    ensures forall e :: e in r <==>
      && e.from == from
      && if e.optional then e.name in meta.optional
         else (e.name in meta.dependencies || e.name in meta.peers) && e.name !in meta.optionalPeers
  {
    EdgesTo(RequiredNames(meta), from, false) + EdgesTo(meta.optional, from, true)
  }
}
