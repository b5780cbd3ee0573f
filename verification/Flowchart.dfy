/**
 The layout pass of the flowchart parser: a queue-driven search from the start
 node that gives every node it reaches a column (`depth`) and a lane (`branch`).
 The edge list is arbitrary: cycles, parallel edges and edges to ids that name
 no node are all allowed.

 The reference notion is the walk: a chain of positions in the edge list. Walks
 are compared by length first and then position by position, so each reachable
 id has one least walk. The search is proved to place every id by its least walk.
 */
module Flowchart {
  import opened Common

  type NodeId = string

  datatype Edge = Edge(from: NodeId, to: NodeId)

  type Walk = seq<nat>

  // ---------------------------------------------------------------------------
  // Walks and their order
  // ---------------------------------------------------------------------------

  ghost predicate IsWalk(edges: seq<Edge>, start: NodeId, w: Walk, id: NodeId)
    decreases |w|
  {
    if w == [] then id == start
    else
      && Last(w) < |edges|
      && edges[Last(w)].to == id
      && IsWalk(edges, start, Init(w), edges[Last(w)].from)
  }

  ghost predicate Reachable(edges: seq<Edge>, start: NodeId, id: NodeId) {
    exists w :: IsWalk(edges, start, w, id)
  }

  /** The first position where two walks differ decides. */
  ghost predicate DiffersDownAt(a: Walk, b: Walk, k: nat)
    requires |a| == |b|
  {
    k < |a| && a[..k] == b[..k] && a[k] < b[k]
  }

  ghost predicate Before(a: Walk, b: Walk) {
    || |a| < |b|
    || (|a| == |b| && exists k: nat :: DiffersDownAt(a, b, k))
  }

  ghost predicate AtMost(a: Walk, b: Walk) {
    a == b || Before(a, b)
  }

  /** `w` is the shortest walk to `id`, and the first of the shortest ones. */
  ghost predicate IsLeastWalk(edges: seq<Edge>, start: NodeId, id: NodeId, w: Walk) {
    && IsWalk(edges, start, w, id)
    && forall v :: IsWalk(edges, start, v, id) ==> AtMost(w, v)
  }

  lemma BeforeTransitive(a: Walk, b: Walk, c: Walk)
    requires Before(a, b) && Before(b, c)
    ensures Before(a, c)
  {
    if |a| == |b| == |c| {
      var j: nat :| DiffersDownAt(a, b, j);
      var k: nat :| DiffersDownAt(b, c, k);
      var m := if j < k then j else k;
      assert a[..m] == a[..j][..m] == b[..j][..m] == b[..m] == b[..k][..m] == c[..k][..m] == c[..m];
      if j < k {
        assert b[j] == b[..k][j] == c[..k][j] == c[j];
      } else if k < j {
        assert a[k] == a[..j][k] == b[..j][k] == b[k];
      }
      assert DiffersDownAt(a, c, m);
    }
  }

  lemma BeforeAsymmetric(a: Walk, b: Walk)
    requires Before(a, b)
    ensures !Before(b, a)
  {
    if Before(b, a) {
      BeforeTransitive(a, b, a);
      assert false;
    }
  }

  /** Extending two walks by one edge each keeps their order. */
  lemma BeforeExtends(a: Walk, b: Walk, x: nat, y: nat)
    requires Before(a, b) || (a == b && x < y)
    ensures Before(a + [x], b + [y])
  {
    var c, d := a + [x], b + [y];
    if a == b {
      assert c[..|a|] == a && d[..|a|] == a;
      assert DiffersDownAt(c, d, |a|);
    } else if |a| == |b| {
      var k: nat :| DiffersDownAt(a, b, k);
      assert c[..k] == a[..k] && d[..k] == b[..k];
      assert DiffersDownAt(c, d, k);
    }
  }

  lemma LeastWalkUnique(edges: seq<Edge>, start: NodeId, id: NodeId, v: Walk, w: Walk)
    requires IsLeastWalk(edges, start, id, v) && IsLeastWalk(edges, start, id, w)
    ensures v == w
  {
    if v != w {
      assert AtMost(v, w) && AtMost(w, v);
      BeforeAsymmetric(v, w);
    }
  }

  // ---------------------------------------------------------------------------
  // Out-edges, forks and lanes
  // ---------------------------------------------------------------------------

  /** Positions of the edges leaving `id`, in list order. */
  function OutEdges(edges: seq<Edge>, id: NodeId): (out: seq<nat>)
    ensures forall i :: 0 <= i < |out| ==> out[i] < |edges|
  {
    if edges == [] then []
    else
      var rest := OutEdges(Init(edges), id);
      if Last(edges).from == id then rest + [|edges| - 1] else rest
  }

  lemma {:induction false} OutEdgesExact(edges: seq<Edge>, id: NodeId)
    ensures forall i :: 0 <= i < |OutEdges(edges, id)| ==> edges[OutEdges(edges, id)[i]].from == id
    ensures forall i, j :: 0 <= i < j < |OutEdges(edges, id)| ==> OutEdges(edges, id)[i] < OutEdges(edges, id)[j]
    ensures forall e :: 0 <= e < |edges| && edges[e].from == id ==> e in OutEdges(edges, id)
  {
    if edges != [] {
      OutEdgesExact(Init(edges), id);
    }
  }

  function Offset(idx: nat): int {
    if idx == 0 then -1 else if idx == 1 then 1 else idx - 1
  }

  /** How many earlier edges leave the same node as edge `e`. */
  ghost function Rank(edges: seq<Edge>, e: nat): nat
    requires e < |edges|
  {
    |OutEdges(edges[..e], edges[e].from)|
  }

  ghost predicate Fork(edges: seq<Edge>, e: nat)
    requires e < |edges|
  {
    |OutEdges(edges, edges[e].from)| >= 2
  }

  lemma {:induction false} RankIsIndex(edges: seq<Edge>, id: NodeId, i: nat)
    requires i < |OutEdges(edges, id)|
    ensures Rank(edges, OutEdges(edges, id)[i]) == i
  {
    OutEdgesExact(edges, id);
    var e := OutEdges(edges, id)[i];
    if e == |edges| - 1 {
      assert edges[..e] == Init(edges);
    } else {
      RankIsIndex(Init(edges), id, i);
      assert edges[..e] == Init(edges)[..e];
    }
  }

  /** The lane of a walk: 0 with no fork on it, else set by its last fork. */
  ghost function WalkBranch(edges: seq<Edge>, w: Walk): int
    requires forall i :: 0 <= i < |w| ==> w[i] < |edges|
    decreases |w|
  {
    if w == [] then 0
    else if Fork(edges, Last(w)) then Offset(Rank(edges, Last(w)))
    else WalkBranch(edges, Init(w))
  }

  ghost predicate InRange(edges: seq<Edge>, w: Walk) {
    forall i :: 0 <= i < |w| ==> w[i] < |edges|
  }

  lemma {:induction false} WalkInRange(edges: seq<Edge>, start: NodeId, w: Walk, id: NodeId)
    requires IsWalk(edges, start, w, id)
    ensures InRange(edges, w)
    decreases |w|
  {
    if w != [] {
      WalkInRange(edges, start, Init(w), edges[Last(w)].from);
    }
  }

  /** What the layout promises of one placed id. */
  ghost predicate Placed(edges: seq<Edge>, start: NodeId, id: NodeId, depth: nat, branch: int) {
    exists w :: PlacedBy(edges, start, id, depth, branch, w)
  }

  ghost predicate PlacedBy(edges: seq<Edge>, start: NodeId, id: NodeId, depth: nat, branch: int, w: Walk) {
    && IsLeastWalk(edges, start, id, w)
    && InRange(edges, w)
    && depth == |w|
    && branch == WalkBranch(edges, w)
  }

  // ---------------------------------------------------------------------------
  // The search
  // ---------------------------------------------------------------------------

  datatype Entry = Entry(id: NodeId, depth: nat, branch: int)

  /** Entry `q` stands for walk `w`. */
  ghost predicate Stands(edges: seq<Edge>, start: NodeId, q: Entry, w: Walk) {
    && IsWalk(edges, start, w, q.id)
    && InRange(edges, w)
    && q.depth == |w|
    && q.branch == WalkBranch(edges, w)
  }

  /** Each queued entry stands for its walk, which extends the walk of a visited node. */
  ghost predicate QueueOk(edges: seq<Edge>, start: NodeId, queue: seq<Entry>, walks: seq<Walk>,
                          via: map<NodeId, Walk>)
  {
    && |queue| == |walks|
    && (forall i :: 0 <= i < |queue| ==> Stands(edges, start, queue[i], walks[i]))
    && (forall i :: 0 <= i < |walks| && walks[i] != [] ==> Extends(edges, walks[i], via))
  }

  ghost predicate Extends(edges: seq<Edge>, w: Walk, via: map<NodeId, Walk>)
    requires w != []
  {
    && Last(w) < |edges|
    && edges[Last(w)].from in via
    && Init(w) == via[edges[Last(w)].from]
  }

  /** The queue is strictly ascending and lies above everything visited. */
  ghost predicate Ascending(walks: seq<Walk>, via: map<NodeId, Walk>) {
    && (forall i, j :: 0 <= i < j < |walks| ==> Before(walks[i], walks[j]))
    && (forall v, i :: v in via && 0 <= i < |walks| ==> Before(via[v], walks[i]))
  }

  /** Every edge out of a visited node is accounted for. */
  ghost predicate EdgeDone(edges: seq<Edge>, walks: seq<Walk>, via: map<NodeId, Walk>, e: nat)
    requires e < |edges| && edges[e].from in via
  {
    var w := via[edges[e].from] + [e];
    || (edges[e].to in via && AtMost(via[edges[e].to], w))
    || w in walks
  }

  ghost predicate Closed(edges: seq<Edge>, walks: seq<Walk>, via: map<NodeId, Walk>) {
    forall e :: 0 <= e < |edges| && edges[e].from in via ==> EdgeDone(edges, walks, via, e)
  }

  ghost predicate Rooted(start: NodeId, walks: seq<Walk>, via: map<NodeId, Walk>) {
    if via == map[] then walks == [[]] else start in via && via[start] == []
  }

  ghost predicate VisitedOk(edges: seq<Edge>, start: NodeId, depth: map<NodeId, nat>, branch: map<NodeId, int>,
                            via: map<NodeId, Walk>)
  {
    && depth.Keys == via.Keys
    && branch.Keys == via.Keys
    && forall v :: v in via ==> Stands(edges, start, Entry(v, depth[v], branch[v]), via[v])
  }

  ghost function Universe(edges: seq<Edge>, start: NodeId): set<NodeId> {
    {start} + set i | 0 <= i < |edges| :: edges[i].to
  }

  /** Dropping an entry whose id is already visited loses nothing. */
  lemma SkipVisited(edges: seq<Edge>, start: NodeId, queue: seq<Entry>, walks: seq<Walk>, via: map<NodeId, Walk>)
    requires SearchOk(edges, start, queue, walks, via)
    requires queue != [] && queue[0].id in via
    ensures SearchOk(edges, start, queue[1..], walks[1..], via)
  {
    forall e | 0 <= e < |edges| && edges[e].from in via
      ensures EdgeDone(edges, walks[1..], via, e)
    {
      assert EdgeDone(edges, walks, via, e);
      var w := via[edges[e].from] + [e];
      if w == walks[0] {
        assert Last(w) == e && queue[0].id == edges[e].to;
        assert Before(via[queue[0].id], walks[0]);
      } else if w in walks {
        assert walks == [walks[0]] + walks[1..];
      }
    }
  }

  function ChildEntries(edges: seq<Edge>, q: Entry, out: seq<nat>): seq<Entry>
    requires forall i :: 0 <= i < |out| ==> out[i] < |edges|
  {
    seq(|out|, i requires 0 <= i < |out| =>
      Entry(edges[out[i]].to, q.depth + 1, if |out| == 1 then q.branch else Offset(i)))
  }

  ghost function ChildWalks(w: Walk, out: seq<nat>): seq<Walk> {
    seq(|out|, i requires 0 <= i < |out| => w + [out[i]])
  }

  lemma ChildStands(edges: seq<Edge>, start: NodeId, q: Entry, w: Walk, i: nat)
    requires Stands(edges, start, q, w)
    requires i < |OutEdges(edges, q.id)|
    ensures
      var out := OutEdges(edges, q.id);
      Stands(edges, start, ChildEntries(edges, q, out)[i], ChildWalks(w, out)[i])
  {
    var out := OutEdges(edges, q.id);
    var c := w + [out[i]];
    assert Init(c) == w && Last(c) == out[i];
    OutEdgesExact(edges, q.id);
    RankIsIndex(edges, q.id, i);
  }

  lemma ChildrenOk(edges: seq<Edge>, start: NodeId, q: Entry, w: Walk, via: map<NodeId, Walk>)
    requires Stands(edges, start, q, w)
    requires q.id in via && via[q.id] == w
    ensures
      var out := OutEdges(edges, q.id);
      QueueOk(edges, start, ChildEntries(edges, q, out), ChildWalks(w, out), via)
  {
    var out := OutEdges(edges, q.id);
    OutEdgesExact(edges, q.id);
    var kids, kidWalks := ChildEntries(edges, q, out), ChildWalks(w, out);
    forall i | 0 <= i < |kids|
      ensures Stands(edges, start, kids[i], kidWalks[i])
      ensures Extends(edges, kidWalks[i], via)
    {
      ChildStands(edges, start, q, w, i);
      assert kidWalks[i] == w + [out[i]];
      assert Init(kidWalks[i]) == w && Last(kidWalks[i]) == out[i];
    }
  }

  lemma VisitQueue(edges: seq<Edge>, start: NodeId, queue: seq<Entry>, walks: seq<Walk>, via: map<NodeId, Walk>)
    requires QueueOk(edges, start, queue, walks, via)
    requires queue != [] && queue[0].id !in via
    ensures QueueOk(edges, start, queue[1..], walks[1..], via[queue[0].id := walks[0]])
  {
    var walks' := walks[1..];
    forall i | 0 <= i < |walks'| && walks'[i] != []
      ensures Extends(edges, walks'[i], via[queue[0].id := walks[0]])
    {
      assert walks'[i] == walks[i + 1];
      assert Extends(edges, walks[i + 1], via);
    }
  }

  lemma QueueConcat(edges: seq<Edge>, start: NodeId, queue: seq<Entry>, walks: seq<Walk>, via: map<NodeId, Walk>,
                    more: seq<Entry>, moreWalks: seq<Walk>)
    requires QueueOk(edges, start, queue, walks, via) && QueueOk(edges, start, more, moreWalks, via)
    ensures QueueOk(edges, start, queue + more, walks + moreWalks, via)
  {
  }

  /** Every queued walk lies below every extension of the walk just taken. */
  lemma BelowChildren(edges: seq<Edge>, walks: seq<Walk>, via: map<NodeId, Walk>, i: nat, x: nat)
    requires Ascending(walks, via)
    requires 0 < i < |walks| && walks[i] != [] ==> Extends(edges, walks[i], via)
    requires 0 < i < |walks|
    ensures Before(walks[i], walks[0] + [x])
  {
    assert Before(walks[0], walks[i]);
    var v := edges[Last(walks[i])].from;
    assert Before(via[v], walks[0]);
    BeforeExtends(via[v], walks[0], Last(walks[i]), x);
    assert walks[i] == Init(walks[i]) + [Last(walks[i])];
  }

  /** What follows the walk just taken: the rest of the queue, then its extensions. */
  lemma FollowersAscend(edges: seq<Edge>, start: NodeId, queue: seq<Entry>, walks: seq<Walk>, via: map<NodeId, Walk>,
                        out: seq<nat>, i: nat, j: nat)
    requires QueueOk(edges, start, queue, walks, via) && Ascending(walks, via)
    requires queue != [] && i < j < |walks| - 1 + |out|
    requires forall i, j :: 0 <= i < j < |out| ==> out[i] < out[j]
    ensures
      var walks' := walks[1..] + ChildWalks(walks[0], out);
      Before(walks'[i], walks'[j])
  {
    var n := |walks| - 1;
    if j < n {
      assert Before(walks[i + 1], walks[j + 1]);
    } else if i < n {
      BelowChildren(edges, walks, via, i + 1, out[j - n]);
    } else {
      BeforeExtends(walks[0], walks[0], out[i - n], out[j - n]);
    }
  }

  lemma FollowersAbove(walks: seq<Walk>, via: map<NodeId, Walk>, out: seq<nat>, i: nat)
    requires Ascending(walks, via) && walks != [] && i < |walks| - 1 + |out|
    ensures Before(walks[0], (walks[1..] + ChildWalks(walks[0], out))[i])
  {
    if i < |walks| - 1 {
      assert Before(walks[0], walks[i + 1]);
    }
  }

  lemma VisitAscending(edges: seq<Edge>, start: NodeId, queue: seq<Entry>, walks: seq<Walk>, via: map<NodeId, Walk>,
                       out: seq<nat>)
    requires QueueOk(edges, start, queue, walks, via) && Ascending(walks, via)
    requires queue != []
    requires forall i, j :: 0 <= i < j < |out| ==> out[i] < out[j]
    ensures Ascending(walks[1..] + ChildWalks(walks[0], out), via[queue[0].id := walks[0]])
  {
    var walks' := walks[1..] + ChildWalks(walks[0], out);
    var via' := via[queue[0].id := walks[0]];
    forall i, j | 0 <= i < j < |walks'|
      ensures Before(walks'[i], walks'[j])
    {
      FollowersAscend(edges, start, queue, walks, via, out, i, j);
    }
    forall v, i | v in via' && 0 <= i < |walks'|
      ensures Before(via'[v], walks'[i])
    {
      FollowersAbove(walks, via, out, i);
      if v != queue[0].id {
        assert Before(via[v], walks[0]);
        BeforeTransitive(via[v], walks[0], walks'[i]);
      }
    }
  }

  lemma VisitClosed(edges: seq<Edge>, start: NodeId, queue: seq<Entry>, walks: seq<Walk>, via: map<NodeId, Walk>)
    requires QueueOk(edges, start, queue, walks, via) && Closed(edges, walks, via)
    requires queue != [] && queue[0].id !in via
    ensures Closed(edges, walks[1..] + ChildWalks(walks[0], OutEdges(edges, queue[0].id)), via[queue[0].id := walks[0]])
  {
    var id, w := queue[0].id, walks[0];
    var out := OutEdges(edges, id);
    var children := ChildWalks(w, out);
    var walks' := walks[1..] + children;
    var via' := via[id := w];
    forall e | 0 <= e < |edges| && edges[e].from in via'
      ensures EdgeDone(edges, walks', via', e)
    {
      var c := via'[edges[e].from] + [e];
      if edges[e].from == id {
        OutEdgesExact(edges, id);
        var j :| 0 <= j < |out| && out[j] == e;
        assert children[j] == c;
        assert walks'[|walks| - 1 + j] == c;
      } else {
        assert EdgeDone(edges, walks, via, e);
        if c == w {
          assert Last(c) == e && edges[e].to == id;
        } else if c in walks {
          var k :| 0 <= k < |walks| && walks[k] == c;
          assert walks'[k - 1] == c;
        }
      }
    }
  }

  lemma VisitRooted(edges: seq<Edge>, start: NodeId, queue: seq<Entry>, walks: seq<Walk>, via: map<NodeId, Walk>,
                    walks': seq<Walk>)
    requires QueueOk(edges, start, queue, walks, via) && Rooted(start, walks, via)
    requires queue != [] && queue[0].id !in via
    ensures Rooted(start, walks', via[queue[0].id := walks[0]])
  {
    var via' := via[queue[0].id := walks[0]];
    assert queue[0].id in via';
    if via == map[] {
      assert Stands(edges, start, queue[0], walks[0]);
    }
  }

  /** With an empty queue, every walk is matched or beaten by the visited one. */
  lemma {:induction false} ClosedIsLeast(edges: seq<Edge>, start: NodeId, via: map<NodeId, Walk>, w: Walk, id: NodeId)
    requires Closed(edges, [], via) && Rooted(start, [], via)
    requires IsWalk(edges, start, w, id)
    ensures id in via && AtMost(via[id], w)
    decreases |w|
  {
    if w != [] {
      var e := Last(w);
      var p := edges[e].from;
      ClosedIsLeast(edges, start, via, Init(w), p);
      assert EdgeDone(edges, [], via, e);
      var c := via[p] + [e];
      assert w == Init(w) + [e];
      if via[p] != Init(w) {
        BeforeExtends(via[p], Init(w), e, e);
        if via[id] != c {
          BeforeTransitive(via[id], c, w);
        }
      }
    }
  }

  lemma QueueInUniverse(edges: seq<Edge>, start: NodeId, w: Walk, id: NodeId)
    requires IsWalk(edges, start, w, id)
    ensures id in Universe(edges, start)
  {
    if w != [] {
      assert edges[Last(w)].to == id;
    }
  }

  /** How many ids are left to visit. */
  ghost function Unseen(edges: seq<Edge>, start: NodeId, visited: set<NodeId>): nat {
    |Universe(edges, start) - visited|
  }

  lemma VisitDecreases(edges: seq<Edge>, start: NodeId, q: Entry, w: Walk, visited: set<NodeId>)
    requires Stands(edges, start, q, w) && q.id !in visited
    ensures Unseen(edges, start, visited + {q.id}) < Unseen(edges, start, visited)
  {
    QueueInUniverse(edges, start, w, q.id);
    var u := Universe(edges, start);
    assert u - visited == (u - (visited + {q.id})) + {q.id};
  }

  ghost predicate SearchOk(edges: seq<Edge>, start: NodeId, queue: seq<Entry>, walks: seq<Walk>,
                           via: map<NodeId, Walk>)
  {
    && QueueOk(edges, start, queue, walks, via)
    && Ascending(walks, via)
    && Closed(edges, walks, via)
    && Rooted(start, walks, via)
  }

  lemma VisitNew(edges: seq<Edge>, start: NodeId, queue: seq<Entry>, walks: seq<Walk>, via: map<NodeId, Walk>)
    requires SearchOk(edges, start, queue, walks, via)
    requires queue != [] && queue[0].id !in via
    ensures
      var out := OutEdges(edges, queue[0].id);
      SearchOk(edges, start, queue[1..] + ChildEntries(edges, queue[0], out), walks[1..] + ChildWalks(walks[0], out),
               via[queue[0].id := walks[0]])
  {
    var q, w := queue[0], walks[0];
    var out := OutEdges(edges, q.id);
    var via' := via[q.id := w];
    VisitQueue(edges, start, queue, walks, via);
    ChildrenOk(edges, start, q, w, via');
    QueueConcat(edges, start, queue[1..], walks[1..], via', ChildEntries(edges, q, out), ChildWalks(w, out));
    OutEdgesExact(edges, q.id);
    VisitAscending(edges, start, queue, walks, via, out);
    VisitClosed(edges, start, queue, walks, via);
    VisitRooted(edges, start, queue, walks, via, walks[1..] + ChildWalks(w, out));
  }

  lemma SearchBegins(edges: seq<Edge>, start: NodeId)
    ensures SearchOk(edges, start, [Entry(start, 0, 0)], [[]], map[])
  {
  }

  lemma VisitRecorded(edges: seq<Edge>, start: NodeId, depth: map<NodeId, nat>, branch: map<NodeId, int>,
                      via: map<NodeId, Walk>, q: Entry, w: Walk)
    requires VisitedOk(edges, start, depth, branch, via) && Stands(edges, start, q, w)
    ensures VisitedOk(edges, start, depth[q.id := q.depth], branch[q.id := q.branch], via[q.id := w])
  {
  }

  /** What an exhausted search has established. */
  lemma SearchDone(edges: seq<Edge>, start: NodeId, depth: map<NodeId, nat>, branch: map<NodeId, int>,
                   via: map<NodeId, Walk>)
    requires SearchOk(edges, start, [], [], via) && VisitedOk(edges, start, depth, branch, via)
    ensures forall id :: id in depth <==> Reachable(edges, start, id)
    ensures forall id :: id in depth ==> Placed(edges, start, id, depth[id], branch[id])
  {
    forall id | Reachable(edges, start, id)
      ensures id in depth
    {
      var w :| IsWalk(edges, start, w, id);
      ClosedIsLeast(edges, start, via, w, id);
    }
    forall id | id in depth
      ensures Reachable(edges, start, id) && Placed(edges, start, id, depth[id], branch[id])
    {
      assert Stands(edges, start, Entry(id, depth[id], branch[id]), via[id]);
      forall v | IsWalk(edges, start, v, id)
        ensures AtMost(via[id], v)
      {
        ClosedIsLeast(edges, start, via, v, id);
      }
      assert PlacedBy(edges, start, id, depth[id], branch[id], via[id]);
    }
  }

  /** Everything the loop maintains. */
  ghost predicate LoopOk(edges: seq<Edge>, start: NodeId, queue: seq<Entry>, walks: seq<Walk>, via: map<NodeId, Walk>,
                         visited: set<NodeId>, depth: map<NodeId, nat>, branch: map<NodeId, int>)
  {
    && SearchOk(edges, start, queue, walks, via)
    && VisitedOk(edges, start, depth, branch, via)
    && visited == via.Keys
  }

  lemma TurnSkips(edges: seq<Edge>, start: NodeId, queue: seq<Entry>, walks: seq<Walk>, via: map<NodeId, Walk>,
                  visited: set<NodeId>, depth: map<NodeId, nat>, branch: map<NodeId, int>)
    requires queue != [] && queue[0].id in visited
    requires LoopOk(edges, start, queue, walks, via, visited, depth, branch)
    ensures walks != [] && LoopOk(edges, start, queue[1..], walks[1..], via, visited, depth, branch)
  {
    SkipVisited(edges, start, queue, walks, via);
  }

  lemma TurnVisits(edges: seq<Edge>, start: NodeId, queue: seq<Entry>, walks: seq<Walk>, via: map<NodeId, Walk>,
                   visited: set<NodeId>, depth: map<NodeId, nat>, branch: map<NodeId, int>)
    requires queue != [] && queue[0].id !in visited
    requires LoopOk(edges, start, queue, walks, via, visited, depth, branch)
    ensures walks != []
    ensures
      var q, w, out := queue[0], walks[0], OutEdges(edges, queue[0].id);
      && LoopOk(edges, start, queue[1..] + ChildEntries(edges, q, out), walks[1..] + ChildWalks(w, out), via[q.id := w],
                visited + {q.id}, depth[q.id := q.depth], branch[q.id := q.branch])
      && Unseen(edges, start, visited + {q.id}) < Unseen(edges, start, visited)
  {
    assert via[queue[0].id := walks[0]].Keys == visited + {queue[0].id};
    VisitDecreases(edges, start, queue[0], walks[0], visited);
    VisitRecorded(edges, start, depth, branch, via, queue[0], walks[0]);
    VisitNew(edges, start, queue, walks, via);
  }

  /**
   The layout loop. It ends because each turn either visits a new id of the
   finite universe or shortens the queue.
   */
  method Layout(edges: seq<Edge>, start: NodeId) returns (depth: map<NodeId, nat>, branch: map<NodeId, int>)
    ensures forall id :: id in depth <==> Reachable(edges, start, id)
    ensures branch.Keys == depth.Keys
    ensures forall id :: id in depth ==> Placed(edges, start, id, depth[id], branch[id])
  {
    depth, branch := map[], map[];
    var queue := [Entry(start, 0, 0)];
    var visited: set<NodeId> := {};
    ghost var walks: seq<Walk> := [[]];
    ghost var via: map<NodeId, Walk> := map[];
    SearchBegins(edges, start);
    while queue != []
      invariant LoopOk(edges, start, queue, walks, via, visited, depth, branch)
      decreases Unseen(edges, start, visited), |queue|
    {
      var q, rest := queue[0], queue[1..];
      if q.id in visited {
        TurnSkips(edges, start, queue, walks, via, visited, depth, branch);
        queue, walks := rest, walks[1..];
      } else {
        TurnVisits(edges, start, queue, walks, via, visited, depth, branch);
        var out := OutEdges(edges, q.id);
        walks, via := walks[1..] + ChildWalks(walks[0], out), via[q.id := walks[0]];
        visited := visited + {q.id};
        depth, branch := depth[q.id := q.depth], branch[q.id := q.branch];
        queue := PushChildren(edges, rest, q, out);
      }
    }
    SearchDone(edges, start, depth, branch, via);
  }

  /** The push at the end of one turn: one entry per out-edge, in list order. */
  method PushChildren(edges: seq<Edge>, rest: seq<Entry>, q: Entry, out: seq<nat>) returns (queue: seq<Entry>)
    requires forall i :: 0 <= i < |out| ==> out[i] < |edges|
    ensures queue == rest + ChildEntries(edges, q, out)
  {
    queue := rest;
    if |out| == 1 {
      queue := queue + [Entry(edges[out[0]].to, q.depth + 1, q.branch)];
    } else {
      for idx := 0 to |out|
        invariant queue == rest + ChildEntries(edges, q, out)[..idx]
      {
        queue := queue + [Entry(edges[out[idx]].to, q.depth + 1, Offset(idx))];
      }
    }
  }

  // ---------------------------------------------------------------------------
  // What the placement means
  // ---------------------------------------------------------------------------

  lemma DepthIsDistance(edges: seq<Edge>, start: NodeId, id: NodeId, depth: nat, branch: int)
    requires Placed(edges, start, id, depth, branch)
    ensures exists w :: IsWalk(edges, start, w, id) && |w| == depth
    ensures forall w :: IsWalk(edges, start, w, id) ==> depth <= |w|
  {
    var w :| PlacedBy(edges, start, id, depth, branch, w);
    forall v | IsWalk(edges, start, v, id)
      ensures depth <= |v|
    {
      assert AtMost(w, v);
    }
  }

  /** The contract leaves no freedom: an id has one depth and one lane. */
  lemma PlacementUnique(edges: seq<Edge>, start: NodeId, id: NodeId, d: nat, b: int, d': nat, b': int)
    requires Placed(edges, start, id, d, b) && Placed(edges, start, id, d', b')
    ensures d == d' && b == b'
  {
    var w :| PlacedBy(edges, start, id, d, b, w);
    var w' :| PlacedBy(edges, start, id, d', b', w');
    LeastWalkUnique(edges, start, id, w, w');
  }

  /** Position `k` holds the last fork of the walk. */
  ghost predicate LastForkAt(edges: seq<Edge>, w: Walk, k: nat)
    requires InRange(edges, w)
  {
    && k < |w|
    && Fork(edges, w[k])
    && forall j :: k < j < |w| ==> !Fork(edges, w[j])
  }

  ghost predicate NoFork(edges: seq<Edge>, w: Walk)
    requires InRange(edges, w)
  {
    forall j :: 0 <= j < |w| ==> !Fork(edges, w[j])
  }

  lemma LastForkExtends(edges: seq<Edge>, w: Walk, k: nat)
    requires InRange(edges, w) && w != [] && !Fork(edges, Last(w))
    ensures LastForkAt(edges, Init(w), k) <==> LastForkAt(edges, w, k)
  {
  }

  /** Lane 0 means no fork; otherwise the lane is the offset taken at the last fork. */
  lemma {:induction false} BranchMeaning(edges: seq<Edge>, w: Walk)
    requires InRange(edges, w)
    ensures NoFork(edges, w) ==> WalkBranch(edges, w) == 0
    ensures !NoFork(edges, w) ==>
              exists k: nat :: LastForkAt(edges, w, k) && WalkBranch(edges, w) == Offset(Rank(edges, w[k])) != 0
    decreases |w|
  {
    if w != [] {
      if Fork(edges, Last(w)) {
        assert LastForkAt(edges, w, |w| - 1);
      } else {
        var v := Init(w);
        BranchMeaning(edges, v);
        if !NoFork(edges, v) {
          var k: nat :| LastForkAt(edges, v, k) && WalkBranch(edges, v) == Offset(Rank(edges, v[k])) != 0;
          LastForkExtends(edges, w, k);
        }
      }
    }
  }

  lemma RankBelowDegree(edges: seq<Edge>, e: nat)
    requires e < |edges|
    ensures Rank(edges, e) < |OutEdges(edges, edges[e].from)|
  {
    var out := OutEdges(edges, edges[e].from);
    OutEdgesExact(edges, edges[e].from);
    var i :| 0 <= i < |out| && out[i] == e;
    RankIsIndex(edges, edges[e].from, i);
  }

  /** Lanes stay between -1 and two less than the largest out-degree (or 1). */
  lemma BranchRange(edges: seq<Edge>, start: NodeId, id: NodeId, depth: nat, branch: int, degree: nat)
    requires Placed(edges, start, id, depth, branch)
    requires forall v :: |OutEdges(edges, v)| <= degree
    ensures -1 <= branch <= if degree - 2 > 1 then degree - 2 else 1
  {
    var w :| PlacedBy(edges, start, id, depth, branch, w);
    BranchMeaning(edges, w);
    if !NoFork(edges, w) {
      var k: nat :| LastForkAt(edges, w, k) && WalkBranch(edges, w) == Offset(Rank(edges, w[k])) != 0;
      RankBelowDegree(edges, w[k]);
    }
  }

  // ---------------------------------------------------------------------------
  // Lanes by counting edges
  // ---------------------------------------------------------------------------

  /** The edges before position `n` that leave `id`. */
  ghost function Leaving(edges: seq<Edge>, id: NodeId, n: nat): set<nat>
    requires n <= |edges|
  {
    set i: nat | i < n && edges[i].from == id
  }

  lemma {:induction false} OutEdgesCount(edges: seq<Edge>, id: NodeId)
    ensures |OutEdges(edges, id)| == |Leaving(edges, id, |edges|)|
  {
    if edges != [] {
      var n, before := |edges| - 1, Init(edges);
      OutEdgesCount(before, id);
      assert Leaving(edges, id, n) == Leaving(before, id, n);
      if edges[n].from == id {
        assert Leaving(edges, id, n + 1) == Leaving(edges, id, n) + {n};
      } else {
        assert Leaving(edges, id, n + 1) == Leaving(edges, id, n);
      }
    } else {
      assert Leaving(edges, id, 0) == {};
    }
  }

  lemma RankCount(edges: seq<Edge>, e: nat)
    requires e < |edges|
    ensures Rank(edges, e) == |Leaving(edges, edges[e].from, e)|
    ensures Fork(edges, e) <==> |Leaving(edges, edges[e].from, |edges|)| >= 2
  {
    OutEdgesCount(edges, edges[e].from);
    OutEdgesCount(edges[..e], edges[e].from);
    assert Leaving(edges[..e], edges[e].from, e) == Leaving(edges, edges[e].from, e);
  }

  /** Edge `e` leaves a node that two or more edges leave. */
  ghost predicate Splits(edges: seq<Edge>, e: nat) {
    e < |edges| && |Leaving(edges, edges[e].from, |edges|)| >= 2
  }

  /** Position `k` of the walk is the last where it could have gone another way. */
  ghost predicate LastSplitAt(edges: seq<Edge>, w: Walk, k: nat) {
    k < |w| && Splits(edges, w[k]) && forall j :: k < j < |w| ==> !Splits(edges, w[j])
  }

  /** The lanes in their own numbers: first edge of a fork -1, second 1, third 2, and so on. */
  ghost predicate LaneOf(edges: seq<Edge>, w: Walk, branch: int) {
    && ((forall j :: 0 <= j < |w| ==> !Splits(edges, w[j])) ==> branch == 0)
    && forall k: nat :: LastSplitAt(edges, w, k) && w[k] < |edges| ==>
         var n := |Leaving(edges, edges[w[k]].from, w[k])|;
         (n == 0 ==> branch == -1) && (n == 1 ==> branch == 1) && (n >= 2 ==> branch == n - 1)
  }

  lemma SplitsAreForks(edges: seq<Edge>, w: Walk)
    requires InRange(edges, w)
    ensures forall j :: 0 <= j < |w| ==> (Splits(edges, w[j]) <==> Fork(edges, w[j]))
  {
    forall j | 0 <= j < |w|
      ensures Splits(edges, w[j]) <==> Fork(edges, w[j])
    {
      RankCount(edges, w[j]);
    }
  }

  /** Every placed id sits in the lane that its least walk leads to. */
  lemma LaneExact(edges: seq<Edge>, start: NodeId, id: NodeId, depth: nat, branch: int, w: Walk)
    requires Placed(edges, start, id, depth, branch) && IsLeastWalk(edges, start, id, w)
    ensures LaneOf(edges, w, branch)
  {
    var v :| PlacedBy(edges, start, id, depth, branch, v);
    LeastWalkUnique(edges, start, id, v, w);
    SplitsAreForks(edges, w);
    BranchMeaning(edges, w);
    forall k: nat | LastSplitAt(edges, w, k) && w[k] < |edges|
      ensures
        var n := |Leaving(edges, edges[w[k]].from, w[k])|;
        (n == 0 ==> branch == -1) && (n == 1 ==> branch == 1) && (n >= 2 ==> branch == n - 1)
    {
      assert Fork(edges, w[k]);
      var m: nat :| LastForkAt(edges, w, m) && WalkBranch(edges, w) == Offset(Rank(edges, w[m])) != 0;
      assert m == k;
      RankCount(edges, w[k]);
    }
  }

  // ---------------------------------------------------------------------------
  // Choosing the start node and placing the listed nodes
  // ---------------------------------------------------------------------------

  datatype NodeType = StartNode | EndNode | ProcessNode | DecisionNode | IoNode

  datatype Node = Node(id: NodeId, nodeType: NodeType)

  datatype PlacedNode = PlacedNode(id: NodeId, order: nat, depth: int, branch: int)

  predicate IsSource(edges: seq<Edge>, id: NodeId) {
    forall i :: 0 <= i < |edges| ==> edges[i].to != id
  }

  ghost predicate FirstStartAt(nodes: seq<Node>, i: nat) {
    && i < |nodes|
    && nodes[i].nodeType.StartNode?
    && forall j :: 0 <= j < i ==> !nodes[j].nodeType.StartNode?
  }

  ghost predicate NoStart(nodes: seq<Node>) {
    forall j :: 0 <= j < |nodes| ==> !nodes[j].nodeType.StartNode?
  }

  ghost predicate FirstSourceAt(nodes: seq<Node>, edges: seq<Edge>, i: nat) {
    && i < |nodes|
    && IsSource(edges, nodes[i].id)
    && forall j :: 0 <= j < i ==> !IsSource(edges, nodes[j].id)
  }

  /** The first start node; failing that, the first node with no incoming edge. */
  ghost predicate ChosenStart(nodes: seq<Node>, edges: seq<Edge>, start: Option<NodeId>) {
    match start
    case Some(id) =>
      || (exists i: nat :: FirstStartAt(nodes, i) && nodes[i].id == id)
      || (NoStart(nodes) && exists i: nat :: FirstSourceAt(nodes, edges, i) && nodes[i].id == id)
    case None =>
      NoStart(nodes) && forall j :: 0 <= j < |nodes| ==> !IsSource(edges, nodes[j].id)
  }

  method FindStart(nodes: seq<Node>, edges: seq<Edge>) returns (start: Option<NodeId>)
    ensures ChosenStart(nodes, edges, start)
  {
    for i := 0 to |nodes|
      invariant forall j :: 0 <= j < i ==> !nodes[j].nodeType.StartNode?
    {
      if nodes[i].nodeType.StartNode? {
        assert FirstStartAt(nodes, i);
        return Some(nodes[i].id);
      }
    }
    for i := 0 to |nodes|
      invariant forall j :: 0 <= j < i ==> !IsSource(edges, nodes[j].id)
    {
      if IsSource(edges, nodes[i].id) {
        assert FirstSourceAt(nodes, edges, i);
        return Some(nodes[i].id);
      }
    }
    start := None;
  }

  ghost predicate NodePlaced(edges: seq<Edge>, start: Option<NodeId>, p: PlacedNode) {
    if start.Some? && Reachable(edges, start.value, p.id)
    then p.depth >= 0 && Placed(edges, start.value, p.id, p.depth, p.branch)
    else p.depth == p.order && p.branch == 0
  }

  /** What the maps hold: the layout from the start, or nothing without one. */
  ghost predicate LaidOut(edges: seq<Edge>, start: Option<NodeId>, depth: map<NodeId, nat>, branch: map<NodeId, int>) {
    if start.None? then depth == map[] && branch == map[]
    else
      && branch.Keys == depth.Keys
      && (forall id :: id in depth <==> Reachable(edges, start.value, id))
      && (forall id :: id in depth ==> Placed(edges, start.value, id, depth[id], branch[id]))
  }

  function PlaceNode(id: NodeId, order: nat, depth: map<NodeId, nat>, branch: map<NodeId, int>): PlacedNode {
    PlacedNode(id, order, if id in depth then depth[id] else order, if id in branch then branch[id] else 0)
  }

  lemma NodeIsPlaced(edges: seq<Edge>, start: Option<NodeId>, depth: map<NodeId, nat>, branch: map<NodeId, int>,
                     id: NodeId, order: nat)
    requires LaidOut(edges, start, depth, branch)
    ensures NodePlaced(edges, start, PlaceNode(id, order, depth, branch))
  {
    if start.Some? {
      assert id in depth.Keys <==> id in branch.Keys;
    }
  }

  /** The graph part of the parser: reached nodes by least walk, the rest by list position. */
  method PlaceNodes(nodes: seq<Node>, edges: seq<Edge>) returns (placed: seq<PlacedNode>)
    ensures |placed| == |nodes|
    ensures forall i :: 0 <= i < |nodes| ==> placed[i].id == nodes[i].id && placed[i].order == i
    ensures exists start :: ChosenStart(nodes, edges, start) &&
              forall i :: 0 <= i < |placed| ==> NodePlaced(edges, start, placed[i])
  {
    var depth: map<NodeId, nat>, branch: map<NodeId, int> := map[], map[];
    var start := FindStart(nodes, edges);
    if start.Some? {
      depth, branch := Layout(edges, start.value);
    }
    assert LaidOut(edges, start, depth, branch);
    placed := [];
    for i := 0 to |nodes|
      invariant |placed| == i
      invariant forall j :: 0 <= j < i ==> placed[j].id == nodes[j].id && placed[j].order == j
      invariant forall j :: 0 <= j < i ==> NodePlaced(edges, start, placed[j])
    {
      NodeIsPlaced(edges, start, depth, branch, nodes[i].id, i);
      placed := placed + [PlaceNode(nodes[i].id, i, depth, branch)];
    }
  }
}
