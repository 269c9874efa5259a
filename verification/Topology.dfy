/** Shortest physical distances between compute sites: the lazy-deletion Dijkstra
    search of the topology, proved against walks in the undirected multigraph. */
module Topology {
  import opened Common

  type Vertex = string

  datatype Edge = Edge(source: Vertex, target: Vertex, delay: real, bandwidth: real) {
    /** What edge construction accepts. */
    predicate Valid() {
      source != "" && target != "" && source != target && delay >= 0.0 && bandwidth > 0.0
    }
  }

  datatype PhysicalTopology = PhysicalTopology(
    id: string, vertices: seq<Vertex>, edges: seq<Edge>, attachments: map<string, Vertex>)
  {
    /** What `validate` accepts, together with the edge checks. */
    ghost predicate Valid() {
      && id != "" && vertices != []
      && (forall i :: 0 <= i < |edges| ==>
            edges[i].Valid() && edges[i].source in vertices && edges[i].target in vertices)
      && (forall node :: node in attachments ==> attachments[node] in vertices)
    }

    /** Every edge, read in both directions. */
    ghost function Graph(): set<Arc> {
      ArcsOf(edges, |edges|)
    }

    ghost function Known(): set<Vertex> {
      set v | v in vertices
    }
  }

  datatype Arc = Arc(from: Vertex, to: Vertex, delay: real)

  ghost function ArcsOf(edges: seq<Edge>, n: nat): set<Arc>
    requires n <= |edges|
  {
    (set i | 0 <= i < n :: Forward(edges[i])) + (set i | 0 <= i < n :: Backward(edges[i]))
  }

  function Forward(e: Edge): Arc {
    Arc(e.source, e.target, e.delay)
  }

  function Backward(e: Edge): Arc {
    Arc(e.target, e.source, e.delay)
  }

  // ----- walks

  /** What edge validation gives the search: symmetric links with non-negative delays. */
  ghost predicate Undirected(g: set<Arc>, known: set<Vertex>) {
    forall arc :: arc in g ==> arc.delay >= 0.0 && arc.to in known && Arc(arc.to, arc.from, arc.delay) in g
  }

  lemma GraphIsUndirected(t: PhysicalTopology)
    requires t.Valid()
    ensures Undirected(t.Graph(), t.Known())
  {
    forall arc | arc in t.Graph()
      ensures Arc(arc.to, arc.from, arc.delay) in t.Graph()
    {
      var i :| 0 <= i < |t.edges| && (arc == Forward(t.edges[i]) || arc == Backward(t.edges[i]));
      assert Arc(arc.to, arc.from, arc.delay) == Forward(t.edges[i]) || Arc(arc.to, arc.from, arc.delay) == Backward(t.edges[i]);
    }
  }

  ghost predicate IsWalk(g: set<Arc>, u: Vertex, hops: seq<Arc>, v: Vertex)
    decreases hops
  {
    if hops == [] then u == v
    else hops[0] in g && hops[0].from == u && IsWalk(g, hops[0].to, hops[1..], v)
  }

  ghost function Length(hops: seq<Arc>): real {
    if hops == [] then 0.0 else hops[0].delay + Length(hops[1..])
  }

  ghost predicate Reachable(g: set<Arc>, u: Vertex, v: Vertex) {
    exists hops :: IsWalk(g, u, hops, v)
  }

  ghost predicate IsShortest(g: set<Arc>, u: Vertex, v: Vertex, d: real) {
    && (exists hops :: IsWalk(g, u, hops, v) && Length(hops) == d)
    && (forall hops :: IsWalk(g, u, hops, v) ==> d <= Length(hops))
  }

  lemma SingleHop(g: set<Arc>, h: Arc)
    requires h in g
    ensures IsWalk(g, h.from, [h], h.to) && Length([h]) == h.delay
  {
    assert [h][1..] == [];
    assert Length([h]) == h.delay + Length([h][1..]);
  }

  lemma {:induction false} WalksCompose(g: set<Arc>, u: Vertex, p: seq<Arc>, v: Vertex, q: seq<Arc>, w: Vertex)
    requires IsWalk(g, u, p, v) && IsWalk(g, v, q, w)
    ensures IsWalk(g, u, p + q, w) && Length(p + q) == Length(p) + Length(q)
    decreases p
  {
    if p == [] {
      assert p + q == q;
    } else {
      WalksCompose(g, p[0].to, p[1..], v, q, w);
      assert (p + q)[1..] == p[1..] + q;
    }
  }

  lemma {:induction false} WalkReverses(g: set<Arc>, known: set<Vertex>, u: Vertex, p: seq<Arc>, v: Vertex)
    returns (q: seq<Arc>)
    requires Undirected(g, known) && IsWalk(g, u, p, v)
    ensures IsWalk(g, v, q, u) && Length(q) == Length(p)
    decreases p
  {
    if p == [] {
      q := [];
    } else {
      var back := WalkReverses(g, known, p[0].to, p[1..], v);
      var hop := Arc(p[0].to, u, p[0].delay);
      SingleHop(g, hop);
      WalksCompose(g, v, back, p[0].to, [hop], u);
      q := back + [hop];
    }
  }

  lemma {:induction false} WalkIsNonNegative(g: set<Arc>, known: set<Vertex>, u: Vertex, hops: seq<Arc>, v: Vertex)
    requires Undirected(g, known) && IsWalk(g, u, hops, v)
    ensures Length(hops) >= 0.0
    decreases hops
  {
    if hops != [] {
      WalkIsNonNegative(g, known, hops[0].to, hops[1..], v);
    }
  }

  lemma DistanceIsUnique(g: set<Arc>, u: Vertex, v: Vertex, d: real, d': real)
    requires IsShortest(g, u, v, d) && IsShortest(g, u, v, d')
    ensures d == d'
  {
  }

  lemma DistanceIsSymmetric(t: PhysicalTopology, u: Vertex, v: Vertex, d: real)
    requires t.Valid() && IsShortest(t.Graph(), u, v, d)
    ensures IsShortest(t.Graph(), v, u, d)
  {
    var g := t.Graph();
    GraphIsUndirected(t);
    var p :| IsWalk(g, u, p, v) && Length(p) == d;
    var q := WalkReverses(g, t.Known(), u, p, v);
    forall r | IsWalk(g, v, r, u)
      ensures d <= Length(r)
    {
      var back := WalkReverses(g, t.Known(), v, r, u);
    }
  }

  lemma DistanceTriangle(g: set<Arc>, u: Vertex, v: Vertex, w: Vertex, uv: real, vw: real, uw: real)
    requires IsShortest(g, u, v, uv) && IsShortest(g, v, w, vw) && IsShortest(g, u, w, uw)
    ensures uw <= uv + vw
  {
    var p :| IsWalk(g, u, p, v) && Length(p) == uv;
    var q :| IsWalk(g, v, q, w) && Length(q) == vw;
    WalksCompose(g, u, p, v, q, w);
  }

  // ----- the search

  type Adjacency = map<Vertex, seq<Arc>>

  /** The adjacency list of each vertex holds the arcs that leave it, and nothing else. */
  ghost predicate Represents(graph: Adjacency, g: set<Arc>) {
    forall u :: u in graph ==> Lists(graph[u], g, u)
  }

  ghost predicate Lists(arcs: seq<Arc>, g: set<Arc>, u: Vertex) {
    forall h :: h in arcs <==> h in g && h.from == u
  }

  method BuildGraph(t: PhysicalTopology) returns (graph: Adjacency)
    requires t.Valid()
    ensures graph.Keys == t.Known() && Represents(graph, t.Graph())
  {
    graph := map v | v in t.vertices :: [];
    var n := 0;
    while n < |t.edges|
      invariant 0 <= n <= |t.edges|
      invariant graph.Keys == t.Known() && Represents(graph, ArcsOf(t.edges, n))
    {
      graph := AddEdge(graph, t.edges, n);
      n := n + 1;
    }
  }

  lemma ArcsOfOneMore(edges: seq<Edge>, n: nat)
    requires n < |edges|
    ensures ArcsOf(edges, n + 1) == ArcsOf(edges, n) + {Forward(edges[n])} + {Backward(edges[n])}
  {
  }

  /** Both directions of one edge. */
  method AddEdge(graph: Adjacency, edges: seq<Edge>, n: nat) returns (r: Adjacency)
    requires n < |edges| && Represents(graph, ArcsOf(edges, n))
    requires Forward(edges[n]).from in graph && Backward(edges[n]).from in graph
    ensures r.Keys == graph.Keys && Represents(r, ArcsOf(edges, n + 1))
  {
    var e := edges[n];
    r := AddArc(graph, ArcsOf(edges, n), Forward(e));
    r := AddArc(r, ArcsOf(edges, n) + {Forward(e)}, Backward(e));
    ArcsOfOneMore(edges, n);
  }

  function AddArc(graph: Adjacency, ghost g: set<Arc>, h: Arc): (r: Adjacency)
    requires Represents(graph, g) && h.from in graph
    ensures r.Keys == graph.Keys && Represents(r, g + {h})
  {
    graph[h.from := graph[h.from] + [h]]
  }

  type Entry = (real, Vertex)

  /** Every vertex in `dist` has a recorded walk of that length from the source. */
  ghost predicate Witnessed(g: set<Arc>, known: set<Vertex>, source: Vertex,
                            dist: map<Vertex, real>, walks: map<Vertex, seq<Arc>>)
  {
    && source in dist && dist.Keys == walks.Keys && dist.Keys <= known
    && (forall v :: v in dist ==> IsWalk(g, source, walks[v], v) && Length(walks[v]) == dist[v])
  }

  /** No arc out of `u` leads to a vertex that could still be improved. */
  ghost predicate Settled(g: set<Arc>, dist: map<Vertex, real>, u: Vertex)
    requires u in dist
  {
    forall h :: h in g && h.from == u ==> h.to in dist && dist[h.to] <= dist[u] + h.delay
  }

  /** The heap holds the current entry of every unexpanded vertex exactly once;
      all its other entries are outdated. */
  ghost predicate HeapMatches(dist: map<Vertex, real>, done: set<Vertex>, frontier: multiset<Entry>) {
    && (forall x: Entry :: x in frontier ==> x.1 in dist && dist[x.1] <= x.0)
    && (forall v :: v in dist ==> frontier[(dist[v], v)] == if v in done then 0 else 1)
  }

  ghost predicate DoneFirst(dist: map<Vertex, real>, done: set<Vertex>, bound: real) {
    done <= dist.Keys && forall u :: u in done ==> dist[u] <= bound
  }

  ghost predicate NoneBelow(frontier: multiset<Entry>, bound: real) {
    forall x: Entry :: x in frontier ==> bound <= x.0
  }

  ghost predicate Ahead(dist: map<Vertex, real>, done: set<Vertex>, frontier: multiset<Entry>) {
    forall x: Entry :: x in frontier ==> DoneFirst(dist, done, x.0)
  }

  method PopLeast(frontier: multiset<Entry>) returns (least: Entry, rest: multiset<Entry>)
    requires |frontier| > 0
    ensures least in frontier && rest == frontier - multiset{least}
    ensures NoneBelow(frontier, least.0)
  {
    LeastExists(frontier);
    least :| least in frontier && forall x :: x in frontier ==> least.0 <= x.0;
    rest := frontier - multiset{least};
  }

  lemma {:induction false} LeastExists(frontier: multiset<Entry>)
    requires |frontier| > 0
    ensures exists m :: m in frontier && forall x :: x in frontier ==> m.0 <= x.0
    decreases |frontier|
  {
    var e :| e in frontier;
    var rest := frontier - multiset{e};
    if |rest| > 0 {
      LeastExists(rest);
      var m :| m in rest && forall x :: x in rest ==> m.0 <= x.0;
      var least := if e.0 <= m.0 then e else m;
      assert least in frontier && forall x :: x in frontier ==> least.0 <= x.0 by {
        assert forall x :: x in frontier ==> x == e || x in rest;
      }
    } else {
      assert forall x :: x in frontier ==> x == e || x in rest;
    }
  }

  /** What every step of the search keeps; `done` are the expanded vertices. */
  ghost predicate Searching(g: set<Arc>, known: set<Vertex>, source: Vertex, dist: map<Vertex, real>,
                            walks: map<Vertex, seq<Arc>>, done: set<Vertex>, frontier: multiset<Entry>)
  {
    && done <= dist.Keys && Witnessed(g, known, source, dist, walks)
    && HeapMatches(dist, done, frontier) && dist[source] == 0.0
    && Ahead(dist, done, frontier)
  }

  ghost predicate AllSettled(g: set<Arc>, dist: map<Vertex, real>, done: set<Vertex>)
    requires done <= dist.Keys
  {
    forall u :: u in done ==> Settled(g, dist, u)
  }

  method DistancesFrom(t: PhysicalTopology, source: Vertex) returns (dist: map<Vertex, real>)
    requires t.Valid() && source in t.vertices
    ensures forall v :: v in dist <==> Reachable(t.Graph(), source, v)
    ensures forall v :: v in dist ==> IsShortest(t.Graph(), source, v, dist[v])
  {
    ghost var g, known := t.Graph(), t.Known();
    GraphIsUndirected(t);
    var graph := BuildGraph(t);
    dist := map[source := 0.0];
    var frontier: multiset<Entry> := multiset{(0.0, source)};
    ghost var walks: map<Vertex, seq<Arc>> := map[source := []];
    ghost var done: set<Vertex> := {};
    while |frontier| > 0
      invariant Searching(g, known, source, dist, walks, done, frontier)
      invariant AllSettled(g, dist, done)
      decreases known - done, |frontier|
    {
      var least, rest := PopLeast(frontier);
      var (distance, node) := least;
      if distance == dist[node] {
        PoppedIsNew(g, known, source, dist, walks, done, frontier, distance, node);
        ghost var before := dist;
        dist, frontier, walks := Expand(graph, g, known, source, dist, rest, walks, done + {node}, distance, node);
        Expanded(g, known, source, before, dist, walks, done, frontier, distance, node);
        done := done + {node};
      } else {
        PoppedIsStale(g, known, source, dist, walks, done, frontier, least);
        frontier := rest;
      }
    }
    Conclude(g, known, source, dist, walks);
  }

  /** After its arcs are relaxed, a vertex counts as expanded. */
  lemma Expanded(g: set<Arc>, known: set<Vertex>, source: Vertex, before: map<Vertex, real>, dist: map<Vertex, real>,
                 walks: map<Vertex, seq<Arc>>, done: set<Vertex>, frontier: multiset<Entry>,
                 distance: real, node: Vertex)
    requires Expanding(g, known, source, before, dist, walks, done + {node}, frontier, distance)
    requires AllSettled(g, before, done) && Settled(g, dist, node)
    ensures Searching(g, known, source, dist, walks, done + {node}, frontier)
    ensures AllSettled(g, dist, done + {node})
  {
    forall u | u in done
      ensures Settled(g, dist, u)
    {
      assert Settled(g, before, u);
    }
  }

  /** The current entry of an unexpanded vertex reaches the top of the heap once. */
  lemma PoppedIsNew(g: set<Arc>, known: set<Vertex>, source: Vertex, dist: map<Vertex, real>,
                    walks: map<Vertex, seq<Arc>>, done: set<Vertex>, frontier: multiset<Entry>,
                    distance: real, node: Vertex)
    requires Searching(g, known, source, dist, walks, done, frontier)
    requires (distance, node) in frontier && distance == dist[node] && NoneBelow(frontier, distance)
    ensures node !in done && node in known
    ensures Expanding(g, known, source, dist, dist, walks, done + {node}, frontier - multiset{(distance, node)}, distance)
  {
  }

  lemma PoppedIsStale(g: set<Arc>, known: set<Vertex>, source: Vertex, dist: map<Vertex, real>,
                      walks: map<Vertex, seq<Arc>>, done: set<Vertex>, frontier: multiset<Entry>, x: Entry)
    requires Searching(g, known, source, dist, walks, done, frontier)
    requires x in frontier && x.0 != dist[x.1]
    ensures Searching(g, known, source, dist, walks, done, frontier - multiset{x})
  {
  }

  /** Distances only improve, and those of `done` not at all. */
  ghost predicate Improves(dist: map<Vertex, real>, dist': map<Vertex, real>, done: set<Vertex>)
    requires done <= dist.Keys
  {
    && (forall v :: v in dist ==> v in dist' && dist'[v] <= dist[v])
    && (forall u :: u in done ==> dist'[u] == dist[u])
  }

  /** Half-way through the arcs out of the last vertex of `done`, at `distance`. */
  ghost predicate Expanding(g: set<Arc>, known: set<Vertex>, source: Vertex, dist0: map<Vertex, real>,
                            dist: map<Vertex, real>, walks: map<Vertex, seq<Arc>>, done: set<Vertex>,
                            frontier: multiset<Entry>, distance: real)
  {
    && Witnessed(g, known, source, dist, walks)
    && HeapMatches(dist, done, frontier) && dist[source] == 0.0
    && DoneFirst(dist, done, distance)
    && NoneBelow(frontier, distance)
    && done <= dist0.Keys
    && Improves(dist0, dist, done)
  }

  ghost predicate Relaxed(dist: map<Vertex, real>, distance: real, links: seq<Arc>, k: nat)
    requires k <= |links|
  {
    forall j :: 0 <= j < k ==> links[j].to in dist && dist[links[j].to] <= distance + links[j].delay
  }

  /** Relaxes every arc out of `node`, whose entry was the least of the heap. */
  method Expand(graph: Adjacency, ghost g: set<Arc>, ghost known: set<Vertex>, ghost source: Vertex,
                dist0: map<Vertex, real>, frontier0: multiset<Entry>, ghost walks0: map<Vertex, seq<Arc>>,
                ghost done: set<Vertex>, distance: real, node: Vertex)
    returns (dist: map<Vertex, real>, frontier: multiset<Entry>, ghost walks: map<Vertex, seq<Arc>>)
    requires Undirected(g, known) && graph.Keys == known && Represents(graph, g)
    requires node in done && node in dist0 && dist0[node] == distance
    requires Expanding(g, known, source, dist0, dist0, walks0, done, frontier0, distance)
    ensures Expanding(g, known, source, dist0, dist, walks, done, frontier, distance)
    ensures Settled(g, dist, node)
  {
    dist, frontier, walks := dist0, frontier0, walks0;
    var links := graph[node];
    var k := 0;
    while k < |links|
      invariant 0 <= k <= |links|
      invariant Expanding(g, known, source, dist0, dist, walks, done, frontier, distance)
      invariant Relaxed(dist, distance, links, k)
    {
      var h := links[k];
      assert Lists(links, g, node) && h in links;
      assert dist[node] == distance;
      var candidate := distance + h.delay;
      if h.to !in dist || candidate < dist[h.to] {
        var dist', frontier' := dist[h.to := candidate], frontier + multiset{(candidate, h.to)};
        walks := Improve(g, known, source, dist0, dist, walks, done, frontier, distance, h,
                         candidate, dist', frontier');
        RelaxedOneMore(dist, dist', distance, links, k);
        dist, frontier := dist', frontier';
      } else {
        RelaxedOneMore(dist, dist, distance, links, k);
      }
      k := k + 1;
    }
    assert Lists(links, g, node);
  }

  lemma RelaxedOneMore(dist: map<Vertex, real>, dist': map<Vertex, real>, distance: real, links: seq<Arc>, k: nat)
    requires k < |links| && Relaxed(dist, distance, links, k) && Improves(dist, dist', {})
    requires links[k].to in dist' && dist'[links[k].to] <= distance + links[k].delay
    ensures Relaxed(dist', distance, links, k + 1)
  {
  }

  /** Recording a shorter walk keeps the search state consistent. */
  lemma Improve(g: set<Arc>, known: set<Vertex>, source: Vertex, dist0: map<Vertex, real>, dist: map<Vertex, real>,
                walks: map<Vertex, seq<Arc>>, done: set<Vertex>, frontier: multiset<Entry>, distance: real, h: Arc,
                candidate: real, dist': map<Vertex, real>, frontier': multiset<Entry>)
    returns (walks': map<Vertex, seq<Arc>>)
    requires Undirected(g, known) && h in g && h.from in done && h.from in dist && dist[h.from] == distance
    requires Expanding(g, known, source, dist0, dist, walks, done, frontier, distance)
    requires candidate == distance + h.delay
    requires h.to in dist ==> candidate < dist[h.to]
    requires dist' == dist[h.to := candidate] && frontier' == frontier + multiset{(candidate, h.to)}
    ensures Improves(dist, dist', {})
    ensures Expanding(g, known, source, dist0, dist', walks', done, frontier', distance)
  {
    assert h.to !in done;
    WalkIsNonNegative(g, known, source, walks[h.from], h.from);
    assert h.to != source;
    ShorterImproves(dist0, dist, done, distance, h.to, candidate, dist');
    walks' := Extend(g, known, source, dist, walks, h, candidate, dist');
  }

  lemma ShorterImproves(dist0: map<Vertex, real>, dist: map<Vertex, real>, done: set<Vertex>, distance: real,
                        v: Vertex, candidate: real, dist': map<Vertex, real>)
    requires v !in done && (v in dist ==> candidate < dist[v]) && distance <= candidate && dist' == dist[v := candidate]
    requires done <= dist0.Keys && Improves(dist0, dist, done) && DoneFirst(dist, done, distance)
    ensures Improves(dist, dist', {}) && Improves(dist0, dist', done) && DoneFirst(dist', done, distance)
  {
  }

  lemma Extend(g: set<Arc>, known: set<Vertex>, source: Vertex, dist: map<Vertex, real>, walks: map<Vertex, seq<Arc>>,
               h: Arc, candidate: real, dist': map<Vertex, real>)
    returns (walks': map<Vertex, seq<Arc>>)
    requires Witnessed(g, known, source, dist, walks) && h in g && h.to in known
    requires h.from in dist && candidate == dist[h.from] + h.delay && dist' == dist[h.to := candidate]
    ensures Witnessed(g, known, source, dist', walks')
  {
    SingleHop(g, h);
    WalksCompose(g, source, walks[h.from], h.from, [h], h.to);
    walks' := walks[h.to := walks[h.from] + [h]];
  }

  /** A walk between settled vertices cannot undercut the recorded distances. */
  lemma {:induction false} WalkRespectsDistances(
      g: set<Arc>, dist: map<Vertex, real>, u: Vertex, hops: seq<Arc>, v: Vertex)
    requires forall w :: w in dist ==> Settled(g, dist, w)
    requires u in dist && IsWalk(g, u, hops, v)
    ensures v in dist && dist[v] <= dist[u] + Length(hops)
    decreases hops
  {
    if hops != [] {
      WalkRespectsDistances(g, dist, hops[0].to, hops[1..], v);
    }
  }

  lemma Conclude(g: set<Arc>, known: set<Vertex>, source: Vertex, dist: map<Vertex, real>, walks: map<Vertex, seq<Arc>>)
    requires Witnessed(g, known, source, dist, walks) && dist[source] == 0.0
    requires forall w :: w in dist ==> Settled(g, dist, w)
    ensures forall v :: v in dist <==> Reachable(g, source, v)
    ensures forall v :: v in dist ==> IsShortest(g, source, v, dist[v])
  {
    forall v, hops | IsWalk(g, source, hops, v)
      ensures v in dist && dist[v] <= Length(hops)
    {
      WalkRespectsDistances(g, dist, source, hops, v);
    }
  }

  // ----- distances between compute nodes

  method ComputeNeighborDistances(t: PhysicalTopology, node: string, available: set<string>)
    returns (result: map<string, real>)
    requires t.Valid()
    ensures forall other :: other in result <==>
              && node in t.attachments && other in t.attachments && other != node && other in available
              && Reachable(t.Graph(), t.attachments[node], t.attachments[other])
    ensures forall other :: other in result ==>
              IsShortest(t.Graph(), t.attachments[node], t.attachments[other], result[other])
  {
    if node !in t.attachments {
      return map[];
    }
    var distances := DistancesFrom(t, t.attachments[node]);
    result := map other | other in t.attachments && other != node && other in available && t.attachments[other] in distances
      :: distances[t.attachments[other]];
  }

  /** The order of the neighbours: by distance, then by identifier. */
  predicate NoLater(distances: map<string, real>, v: string, w: string)
    requires v in distances && w in distances
  {
    distances[v] < distances[w] || (distances[v] == distances[w] && Precedes(v, w))
  }

  lemma NoLaterChains(distances: map<string, real>, u: string, v: string, w: string)
    requires u in distances && v in distances && w in distances
    requires NoLater(distances, u, v) && NoLater(distances, v, w)
    ensures NoLater(distances, u, w)
  {
    if distances[u] == distances[w] {
      PrecedesIsTransitive(u, v, w);
    }
  }

  lemma {:induction false} NearestExists(left: set<string>, distances: map<string, real>)
    requires left != {} && left <= distances.Keys
    ensures exists v :: v in left && forall w :: w in left ==> NoLater(distances, v, w)
  {
    var v :| v in left;
    var rest := left - {v};
    PrecedesIsTotal(v, v);
    if rest == {} {
      assert left == {v};
    } else {
      NearestExists(rest, distances);
      var u :| u in rest && forall w :: w in rest ==> NoLater(distances, u, w);
      PrecedesIsTotal(u, v);
      var least := if NoLater(distances, u, v) then u else v;
      forall w | w in left
        ensures NoLater(distances, least, w)
      {
        if w != v {
          NoLaterChains(distances, least, u, w);
        }
      }
    }
  }

  /** `order` lists the keys of `distances` outside `left` once each, nearest first, and
      nothing in `left` comes before any of them. */
  ghost predicate NearestFirst(order: seq<string>, distances: map<string, real>, left: set<string>) {
    && (forall v :: v in order <==> v in distances && v !in left)
    && (forall i, j :: 0 <= i < j < |order| ==> order[i] != order[j])
    && (forall i, j :: 0 <= i < j < |order| ==> NoLater(distances, order[i], order[j]))
    && (forall i, v :: 0 <= i < |order| && v in left && v in distances ==> NoLater(distances, order[i], v))
  }

  method SortByDistance(distances: map<string, real>) returns (order: seq<string>)
    ensures NearestFirst(order, distances, {})
  {
    order := [];
    var left := distances.Keys;
    while left != {}
      invariant left <= distances.Keys && NearestFirst(order, distances, left)
      decreases left
    {
      NearestExists(left, distances);
      var v :| v in left && forall w :: w in left ==> NoLater(distances, v, w);
      order := order + [v];
      left := left - {v};
    }
  }

  ghost predicate BothDistances(t: PhysicalTopology, node: string, a: string, b: string, near: real, far: real) {
    && node in t.attachments && a in t.attachments && b in t.attachments
    && IsShortest(t.Graph(), t.attachments[node], t.attachments[a], near)
    && IsShortest(t.Graph(), t.attachments[node], t.attachments[b], far)
  }

  /** `a` is nearer than `b`, or as near with an identifier that comes first. */
  ghost predicate ComesFirst(t: PhysicalTopology, node: string, a: string, b: string) {
    forall near, far :: BothDistances(t, node, a, b, near, far) ==> near < far || (near == far && Precedes(a, b))
  }

  /** The reachable compute nodes, each once, in the order of their distance and identifier. */
  method ConnectedComputeNeighbors(t: PhysicalTopology, node: string, available: set<string>) returns (order: seq<string>)
    requires t.Valid()
    ensures forall other :: other in order <==>
              && node in t.attachments && other in t.attachments && other != node && other in available
              && Reachable(t.Graph(), t.attachments[node], t.attachments[other])
    ensures forall i, j :: 0 <= i < j < |order| ==> order[i] != order[j]
    ensures forall i, j :: 0 <= i < j < |order| ==> ComesFirst(t, node, order[i], order[j])
  {
    var distances := ComputeNeighborDistances(t, node, available);
    order := SortByDistance(distances);
    forall i, j | 0 <= i < j < |order|
      ensures ComesFirst(t, node, order[i], order[j])
    {
      forall near, far | BothDistances(t, node, order[i], order[j], near, far)
        ensures near < far || (near == far && Precedes(order[i], order[j]))
      {
        DistanceIsUnique(t.Graph(), t.attachments[node], t.attachments[order[i]], near, distances[order[i]]);
        DistanceIsUnique(t.Graph(), t.attachments[node], t.attachments[order[j]], far, distances[order[j]]);
        assert NoLater(distances, order[i], order[j]);
      }
    }
  }

  /** Whoever asks, two attached compute nodes are reported the same distance apart. */
  lemma NeighborDistancesAgree(t: PhysicalTopology, a: string, b: string, ab: real, ba: real)
    requires t.Valid() && a in t.attachments && b in t.attachments
    requires IsShortest(t.Graph(), t.attachments[a], t.attachments[b], ab)
    requires IsShortest(t.Graph(), t.attachments[b], t.attachments[a], ba)
    ensures ab == ba
  {
    DistanceIsSymmetric(t, t.attachments[a], t.attachments[b], ab);
    DistanceIsUnique(t.Graph(), t.attachments[b], t.attachments[a], ab, ba);
  }
}
