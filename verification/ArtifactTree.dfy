/** Materializing a linked artifact tree: a recursive download over a link graph that may be cyclic. */
module ArtifactTree {
  import opened Prelude

  type Uri = Id

  /** The objects that exist and parse, each with the links found in it, in order. */
  type LinkGraph = map<Uri, seq<Uri>>

  ghost predicate IsPath(g: LinkGraph, path: seq<Uri>) {
    && path != []
    && forall i :: 0 <= i < |path| - 1 ==> path[i] in g && path[i + 1] in g[path[i]]
  }

  ghost predicate Reaches(g: LinkGraph, from: Uri, to: Uri) {
    exists path :: IsPath(g, path) && path[0] == from && path[|path| - 1] == to
  }

  lemma ReachesItself(g: LinkGraph, u: Uri)
    ensures Reaches(g, u, u)
  {
    assert IsPath(g, [u]);
  }

  /** A link in front of a path makes a path. */
  lemma ReachesThroughLink(g: LinkGraph, from: Uri, link: Uri, to: Uri)
    requires from in g && link in g[from] && Reaches(g, link, to)
    ensures Reaches(g, from, to)
  {
    var path :| IsPath(g, path) && path[0] == link && path[|path| - 1] == to;
    var longer := [from] + path;
    forall i | 0 <= i < |longer| - 1
      ensures longer[i] in g && longer[i + 1] in g[longer[i]]
    {
      if i > 0 {
        assert longer[i] == path[i - 1] && longer[i + 1] == path[i];
      }
    }
    assert IsPath(g, longer);
  }

  /** A set that contains the start and every link of its members contains everything reachable. */
  lemma {:induction false} ClosedSetHoldsPath(g: LinkGraph, s: set<Uri>, path: seq<Uri>)
    requires IsPath(g, path) && path[0] in s
    requires forall u :: u in s ==> u in g && forall v :: v in g[u] ==> v in s
    ensures path[|path| - 1] in s
    decreases |path|
  {
    if |path| > 1 {
      assert path[1] in g[path[0]];
      forall i | 0 <= i < |path[1..]| - 1
        ensures path[1..][i] in g && path[1..][i + 1] in g[path[1..][i]]
      {
        assert path[1..][i] == path[i + 1] && path[1..][i + 1] == path[i + 2];
      }
      ClosedSetHoldsPath(g, s, path[1..]);
    }
  }

  predicate NoDuplicates(us: seq<Uri>) {
    forall i, j :: 0 <= i < j < |us| ==> us[i] != us[j]
  }

  /** The shared `visited` dictionary and the downloads it stands for. */
  class Materializer {
    const graph: LinkGraph
    var visited: set<Uri>
    var downloads: seq<Uri>

    ghost predicate Valid()
      reads this
    {
      visited <= graph.Keys && NoDuplicates(downloads) && (forall u :: u in downloads <==> u in visited)
    }

    constructor (graph: LinkGraph)
      ensures Valid() && visited == {} && downloads == [] && this.graph == graph
    {
      this.graph := graph;
      visited, downloads := {}, [];
    }

    /**
     * _materialize_cloud_json_tree. Terminates on cycles because every recursion visits something new.
     * Success adds only reachable objects and leaves every newly visited object with all its links visited;
     * failure means that some reachable object is missing or does not parse.
     */
    method Materialize(uri: Uri) returns (ok: bool)
      requires Valid()
      modifies this
      ensures Valid()
      ensures old(visited) <= visited && old(downloads) <= downloads
      ensures forall u :: u in visited - old(visited) ==> Reaches(graph, uri, u)
      ensures ok ==> uri in visited
      ensures ok ==> forall u :: u in visited - old(visited) ==> forall v :: v in graph[u] ==> v in visited
      ensures !ok ==> exists u :: Reaches(graph, uri, u) && u !in graph
      decreases graph.Keys - visited
    {
      if uri in visited {
        return true;
      }
      ReachesItself(graph, uri);
      if uri !in graph {
        return false;
      }
      downloads := downloads + [uri];
      visited := visited + {uri};
      var links := graph[uri];
      for i := 0 to |links|
        invariant Valid() && uri in visited
        invariant old(visited) + {uri} <= visited && old(downloads) <= downloads
        invariant forall u :: u in visited - old(visited) ==> Reaches(graph, uri, u)
        invariant forall k :: 0 <= k < i ==> links[k] in visited
        invariant forall u :: u in visited - old(visited) - {uri} ==> forall v :: v in graph[u] ==> v in visited
      {
        ghost var before := visited;
        ok := Materialize(links[i]);
        forall u | Reaches(graph, links[i], u)
          ensures Reaches(graph, uri, u)
        {
          ReachesThroughLink(graph, uri, links[i], u);
        }
        assert forall u :: u in visited ==> u in before || u in visited - before;
        if !ok {
          return false;
        }
      }
      return true;
    }
  }

  /**
   * materialize_market_signal_artifact_tree on a fresh cache: it succeeds exactly when every reachable object
   * exists and parses, and then the visited set is exactly what the root reaches, each downloaded once.
   */
  method MaterializeTree(graph: LinkGraph, root: Uri) returns (ok: bool, visited: set<Uri>, downloads: seq<Uri>)
    ensures ok <==> forall u :: Reaches(graph, root, u) ==> u in graph
    ensures ok ==> forall u :: u in visited <==> Reaches(graph, root, u)
    ensures forall u :: u in downloads <==> u in visited
    ensures NoDuplicates(downloads) && |downloads| == |visited|
    ensures forall u :: u in visited ==> u in graph && Reaches(graph, root, u)
  {
    var m := new Materializer(graph);
    ok := m.Materialize(root);
    visited, downloads := m.visited, m.downloads;
    if ok {
      forall u | Reaches(graph, root, u)
        ensures u in visited
      {
        var path :| IsPath(graph, path) && path[0] == root && path[|path| - 1] == u;
        ClosedSetHoldsPath(graph, visited, path);
      }
    }
    DistinctLength(downloads, visited);
  }

  lemma {:induction false} DistinctLength(us: seq<Uri>, s: set<Uri>)
    requires NoDuplicates(us) && forall u :: u in us <==> u in s
    ensures |us| == |s|
    decreases |us|
  {
    if us == [] {
      assert s == {};
    } else {
      var n := |us| - 1;
      var rest := us[..n];
      assert us == rest + [us[n]];
      forall u
        ensures u in rest <==> u in s - {us[n]}
      {
        if u in rest {
          var i :| 0 <= i < n && rest[i] == u;
          assert us[i] == u;
        }
      }
      assert us[n] in us;
      DistinctLength(rest, s - {us[n]});
    }
  }
}
