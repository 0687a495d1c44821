/** The boot graph's module order (`order_by_module_graph`): every requested package row
    comes before its consumers, or the cycle that prevents it is reported. */
module ModuleGraph {
  import opened Json

  type Graph = seq<seq<nat>>

  /** Every dependency is a node. */
  predicate Closed(deps: Graph) {
    forall i, k | 0 <= i < |deps| && 0 <= k < |deps[i]| :: deps[i][k] < |deps|
  }

  predicate Distinct(ns: seq<nat>) {
    forall i, j | 0 <= i < j < |ns| :: ns[i] != ns[j]
  }

  predicate Below(ns: seq<nat>, n: nat) {
    forall i | 0 <= i < |ns| :: ns[i] < n
  }

  /** Each node of `order` comes after all it depends on. */
  predicate DepsFirst(deps: Graph, order: seq<nat>)
    requires Below(order, |deps|)
  {
    forall p, d | 0 <= p < |order| && d in deps[order[p]] :: d in order[..p]
  }

  predicate Topological(deps: Graph, order: seq<nat>) {
    Below(order, |deps|) && |order| == |deps| && Distinct(order) && DepsFirst(deps, order)
  }

  /** A closed walk along dependency edges. */
  predicate Cycle(deps: Graph, c: seq<nat>) {
    && |c| >= 2 && c[0] == c[|c| - 1] && Below(c, |deps|)
    && forall i | 0 <= i < |c| - 1 :: c[i + 1] in deps[c[i]]
  }

  /** A walk that visits no node twice before it closes. */
  predicate SimpleCycle(deps: Graph, c: seq<nat>) {
    Cycle(deps, c) && Distinct(c[..|c| - 1])
  }

  // ----- the depth-first search -----

  type Frame = (nat, nat)

  /** The frames of the open nodes: each has been entered, stands on an edge to the next, and
      has placed every dependency before that edge. */
  ghost predicate OpenFrames(deps: Graph, placed: seq<bool>, open: seq<nat>, frames: seq<Frame>)
    requires Closed(deps) && |placed| == |deps| && Below(open, |deps|)
  {
    && |frames| == |open|
    && (forall i | 0 <= i < |open| ::
          && frames[i].0 == open[i] && 1 <= frames[i].1 <= |deps[open[i]]|
          && forall k | 0 <= k < frames[i].1 - 1 :: placed[deps[open[i]][k]])
    && (forall i | 0 <= i < |open| - 1 :: deps[open[i]][frames[i].1 - 1] == open[i + 1])
  }

  /** Nodes are placed exactly when ordered, and an open node is not placed yet. */
  ghost predicate Progress(deps: Graph, placed: seq<bool>, open: seq<nat>, ordered: seq<nat>) {
    && |placed| == |deps|
    && Below(open, |deps|) && Distinct(open)
    && Below(ordered, |deps|) && Distinct(ordered) && DepsFirst(deps, ordered)
    && (forall i | 0 <= i < |deps| :: placed[i] <==> i in ordered)
    && (forall i | 0 <= i < |open| :: !placed[open[i]])
  }

  /** The edge the innermost open node stands on. */
  function Edge(deps: Graph, frames: seq<Frame>): Option<nat> {
    if frames == [] then None
    else
      var (node, next) := frames[|frames| - 1];
      if node < |deps| && 1 <= next <= |deps[node]| then Some(deps[node][next - 1]) else None
  }

  /** Either the innermost open node is on top and its current edge is done, or the node that
      edge leads to is about to be entered. */
  ghost predicate Searching(deps: Graph, placed: seq<bool>, open: seq<nat>, ordered: seq<nat>, stack: seq<Frame>)
    requires Closed(deps)
  {
    && Progress(deps, placed, open, ordered)
    && |open| <= |stack| <= |open| + 1
    && OpenFrames(deps, placed, open, stack[..|open|])
    && (|stack| == |open| && open != [] ==> placed[Edge(deps, stack).value])
    && (|stack| > |open| ==>
          && var node := stack[|open|].0;
             stack[|open|].1 == 0 && node < |deps| && !placed[node]
             && (open != [] ==> Edge(deps, stack[..|open|]) == Some(node)))
  }

  lemma {:induction false} DistinctFits(ns: seq<nat>, n: nat)
    requires Distinct(ns) && Below(ns, n)
    ensures |ns| <= n
    ensures |ns| == n ==> forall i | 0 <= i < n :: i in ns
  {
    var nodes := set i | 0 <= i < |ns| :: ns[i];
    var all := Range(n);
    SizeOfDistinct(ns);
    assert nodes <= all;
    SubsetSize(nodes, all);
    if |ns| == n {
      forall i | 0 <= i < n
        ensures i in ns
      {
        assert i in all && nodes == all;
      }
    }
  }

  function Range(n: nat): (r: set<nat>)
    ensures |r| == n && forall i: nat :: i in r <==> i < n
  {
    if n == 0 then {} else Range(n - 1) + {n - 1}
  }

  lemma {:induction false} SizeOfDistinct(ns: seq<nat>)
    requires Distinct(ns)
    ensures |set i | 0 <= i < |ns| :: ns[i]| == |ns|
  {
    if ns != [] {
      var n := |ns| - 1;
      SizeOfDistinct(ns[..n]);
      var before := set i | 0 <= i < n :: ns[..n][i];
      assert (set i | 0 <= i < |ns| :: ns[i]) == before + {ns[n]};
    }
  }

  lemma {:induction false} SubsetSize(a: set<nat>, b: set<nat>)
    requires a <= b
    ensures |a| <= |b|
    ensures |a| == |b| ==> a == b
  {
    if a != {} {
      var x :| x in a;
      SubsetSize(a - {x}, b - {x});
    }
  }

  /** The search never runs out of nodes it has not seen. */
  lemma SearchFits(deps: Graph, placed: seq<bool>, open: seq<nat>, ordered: seq<nat>)
    requires Progress(deps, placed, open, ordered)
    ensures |open| + |ordered| <= |deps|
  {
    var seen := open + ordered;
    forall i, j | 0 <= i < j < |seen|
      ensures seen[i] != seen[j]
    {
      if i < |open| && j >= |open| {
        assert ordered[j - |open|] in ordered;
      }
    }
    DistinctFits(seen, |deps|);
  }

  /** The innermost open node has been taken off the stack, with `next` dependencies placed. */
  ghost predicate Standing(deps: Graph, placed: seq<bool>, open: seq<nat>, ordered: seq<nat>, frames: seq<Frame>,
                           next: nat)
    requires Closed(deps)
  {
    && open != [] && Progress(deps, placed, open, ordered)
    && OpenFrames(deps, placed, open[..|open| - 1], frames)
    && var node := open[|open| - 1];
       next <= |deps[node]| && (forall k | 0 <= k < next :: placed[deps[node][k]])
       && (|open| > 1 ==> Edge(deps, frames) == Some(node))
  }

  lemma PopStands(deps: Graph, placed: seq<bool>, open: seq<nat>, ordered: seq<nat>, stack: seq<Frame>)
    requires Closed(deps) && Searching(deps, placed, open, ordered, stack)
    requires |stack| == |open| && open != []
    ensures Standing(deps, placed, open, ordered, stack[..|stack| - 1], stack[|stack| - 1].1)
    ensures stack[|stack| - 1].0 == open[|open| - 1] && stack[|stack| - 1].1 > 0
  {
    var m := |open|;
    assert stack[..m] == stack;
    var frames := stack[..m - 1];
    if m > 1 {
      assert frames[m - 2] == stack[m - 2] && deps[open[m - 2]][stack[m - 2].1 - 1] == open[m - 1];
    }
  }

  lemma EnterStands(deps: Graph, placed: seq<bool>, open: seq<nat>, ordered: seq<nat>, stack: seq<Frame>)
    requires Closed(deps) && Searching(deps, placed, open, ordered, stack)
    requires |stack| > |open| && stack[|open|].0 !in open
    ensures Standing(deps, placed, open + [stack[|open|].0], ordered, stack[..|open|], 0)
  {
    var node, frames := stack[|open|].0, stack[..|open|];
    assert (open + [node])[..|open|] == open;
  }

  lemma AdvanceSearches(deps: Graph, placed: seq<bool>, open: seq<nat>, ordered: seq<nat>, frames: seq<Frame>,
                        next: nat)
    requires Closed(deps) && Standing(deps, placed, open, ordered, frames, next)
    requires next < |deps[open[|open| - 1]]|
    ensures
      var node := open[|open| - 1];
      var dep := deps[node][next];
      Searching(deps, placed, open, ordered, frames + [(node, next + 1)] + if placed[dep] then [] else [(dep, 0)])
  {
    var m, node := |open|, open[|open| - 1];
    var dep := deps[node][next];
    var stack := frames + [(node, next + 1)] + if placed[dep] then [] else [(dep, 0)];
    AdvanceFrames(deps, placed, open, ordered, frames, next);
    assert stack[..m] == frames + [(node, next + 1)];
  }

  lemma AdvanceFrames(deps: Graph, placed: seq<bool>, open: seq<nat>, ordered: seq<nat>, frames: seq<Frame>, next: nat)
    requires Closed(deps) && Standing(deps, placed, open, ordered, frames, next)
    requires next < |deps[open[|open| - 1]]|
    ensures OpenFrames(deps, placed, open, frames + [(open[|open| - 1], next + 1)])
  {
    var m := |open|;
    var top := frames + [(open[m - 1], next + 1)];
    forall i | 0 <= i < m
      ensures top[i].0 == open[i] && 1 <= top[i].1 <= |deps[open[i]]|
      ensures forall k | 0 <= k < top[i].1 - 1 :: placed[deps[open[i]][k]]
      ensures i < m - 1 ==> deps[open[i]][top[i].1 - 1] == open[i + 1]
    {
      if i < m - 1 {
        StandingFrame(deps, placed, open, ordered, frames, next, i);
        assert top[i] == frames[i];
      }
    }
  }

  /** A frame below the innermost one is at the dependency that is open above it. */
  lemma StandingFrame(deps: Graph, placed: seq<bool>, open: seq<nat>, ordered: seq<nat>, frames: seq<Frame>, next: nat,
                      i: nat)
    requires Closed(deps) && Standing(deps, placed, open, ordered, frames, next) && i < |open| - 1
    ensures i < |frames| && frames[i].0 == open[i] < |deps| && 1 <= frames[i].1 <= |deps[open[i]]|
    ensures forall k | 0 <= k < frames[i].1 - 1 :: placed[deps[open[i]][k]]
    ensures deps[open[i]][frames[i].1 - 1] == open[i + 1]
  {
    assert open[..|open| - 1][i] == open[i];
    if i < |open| - 2 {
      assert open[..|open| - 1][i + 1] == open[i + 1];
    }
  }

  /** Every dependency of the node placed last is before it. */
  lemma PlacedLast(deps: Graph, placed: seq<bool>, open: seq<nat>, ordered: seq<nat>, frames: seq<Frame>)
    requires Closed(deps) && open != [] && open[|open| - 1] < |deps|
    requires Standing(deps, placed, open, ordered, frames, |deps[open[|open| - 1]]|)
    ensures
      var after := ordered + [open[|open| - 1]];
      forall p, d | 0 <= p < |after| && after[p] < |deps| && d in deps[after[p]] :: d in after[..p]
  {
    var node := open[|open| - 1];
    var after := ordered + [node];
    forall p, d | 0 <= p < |after| && after[p] < |deps| && d in deps[after[p]]
      ensures d in after[..p]
    {
      if p == |ordered| {
        var k :| 0 <= k < |deps[node]| && deps[node][k] == d;
        assert placed[deps[node][k]];
        assert after[..p] == ordered;
      } else {
        assert after[..p] == ordered[..p];
      }
    }
  }

  lemma PlaceSearches(deps: Graph, placed: seq<bool>, open: seq<nat>, ordered: seq<nat>, frames: seq<Frame>)
    requires Closed(deps) && open != [] && open[|open| - 1] < |deps|
    requires Standing(deps, placed, open, ordered, frames, |deps[open[|open| - 1]]|)
    ensures
      var node := open[|open| - 1];
      Searching(deps, placed[node := true], open[..|open| - 1], ordered + [node], frames)
  {
    var m, node := |open|, open[|open| - 1];
    PlacedProgress(deps, placed, open, ordered, frames);
    assert frames[..m - 1] == frames;
    assert forall i | 0 <= i < m - 1 :: open[..m - 1][i] == open[i] && open[i] != node;
  }

  lemma PlacedProgress(deps: Graph, placed: seq<bool>, open: seq<nat>, ordered: seq<nat>, frames: seq<Frame>)
    requires Closed(deps) && open != [] && open[|open| - 1] < |deps|
    requires Standing(deps, placed, open, ordered, frames, |deps[open[|open| - 1]]|)
    ensures
      var node := open[|open| - 1];
      Progress(deps, placed[node := true], open[..|open| - 1], ordered + [node])
  {
    var m, node := |open|, open[|open| - 1];
    var placed', ordered' := placed[node := true], ordered + [node];
    PlacedLast(deps, placed, open, ordered, frames);
    assert node !in ordered;
    forall i | 0 <= i < |deps|
      ensures placed'[i] <==> i in ordered'
    {
    }
    assert forall i | 0 <= i < m - 1 :: open[..m - 1][i] == open[i] && open[i] != node;
  }

  function Position(ns: seq<nat>, n: nat): (at: Option<nat>)
    ensures at.Some? ==> at.value < |ns| && ns[at.value] == n
    ensures at == None ==> n !in ns
  {
    if ns == [] then None
    else if ns[0] == n then Some(0)
    else
      var rest := Position(ns[1..], n);
      if rest.Some? then Some(rest.value + 1) else None
  }

  /** The open nodes from the one met again are a path, and its last node asked for the first. */
  lemma MetAgain(deps: Graph, placed: seq<bool>, open: seq<nat>, ordered: seq<nat>, stack: seq<Frame>, start: nat)
    requires Closed(deps) && Searching(deps, placed, open, ordered, stack)
    requires |stack| > |open| && start < |open| && open[start] == stack[|open|].0
    ensures SimpleCycle(deps, open[start..] + [open[start]])
  {
    var m, c := |open|, open[start..] + [open[start]];
    forall i | 0 <= i < |c| - 1
      ensures c[i + 1] in deps[c[i]]
    {
      assert c[i] == open[start + i] && stack[..m][start + i] == stack[start + i];
      if start + i < m - 1 {
        assert deps[open[start + i]][stack[start + i].1 - 1] == open[start + i + 1];
      } else {
        assert Edge(deps, stack[..m]) == Some(open[start]);
      }
    }
    assert c[..|c| - 1] == open[start..];
  }

  datatype Outcome = Ordered(order: seq<nat>) | CycleFound(cycle: seq<nat>)

  function EdgesLeft(deps: Graph, open: seq<nat>, stack: seq<Frame>): nat {
    if open == [] || |stack| < |open| || open[|open| - 1] >= |deps| then 0
    else
      var len, next := |deps[open[|open| - 1]]|, stack[|open| - 1].1;
      if next <= len then len - next else 0
  }

  /** Iterative post-order search: a frame is a node and its next dependency; a node is entered
      on its first frame and ordered once its dependencies are. */
  method Search(deps: Graph) returns (r: Outcome)
    requires Closed(deps)
    ensures r.Ordered? ==> Topological(deps, r.order)
    ensures r.CycleFound? ==> SimpleCycle(deps, r.cycle)
  {
    var placed := seq(|deps|, _ => false);
    var ordered: seq<nat> := [];
    for root := 0 to |deps|
      invariant Progress(deps, placed, [], ordered)
      invariant forall i | 0 <= i < root :: i in ordered
    {
      if placed[root] {
        assert root in ordered;
      } else {
        var cycle;
        ghost var before := ordered;
        placed, ordered, cycle := SearchFrom(deps, root, placed, ordered);
        if cycle != [] {
          return CycleFound(cycle);
        }
        assert forall i | i in before :: i in ordered;
      }
    }
    AllOrdered(ordered, |deps|);
    r := Ordered(ordered);
  }

  /** The search from one root; nothing is open before or after. */
  method SearchFrom(deps: Graph, root: nat, placed0: seq<bool>, ordered0: seq<nat>)
    returns (placed: seq<bool>, ordered: seq<nat>, cycle: seq<nat>)
    requires Closed(deps) && root < |deps| && Progress(deps, placed0, [], ordered0) && !placed0[root]
    ensures cycle == [] ==> Progress(deps, placed, [], ordered) && ordered0 <= ordered && root in ordered
    ensures cycle != [] ==> SimpleCycle(deps, cycle)
  {
    placed, ordered, cycle := placed0, ordered0, [];
    var open: seq<nat> := [];
    var stack: seq<Frame> := [(root, 0)];
    SearchFits(deps, placed, open, ordered);
    while stack != []
      invariant Searching(deps, placed, open, ordered, stack)
      invariant |open| + |ordered| <= |deps|
      invariant ordered0 <= ordered && cycle == []
      invariant root in ordered || (stack != [] && stack[0].0 == root)
      decreases |deps| - |open| - |ordered|, |deps| - |ordered|, EdgesLeft(deps, open, stack)
    {
      placed, open, ordered, stack, cycle := SearchOn(deps, placed, open, ordered, stack);
      if cycle != [] {
        return;
      }
      SearchFits(deps, placed, open, ordered);
    }
    assert open == [];
  }

  /** The search gets on: a node is opened, or placed, or one more dependency is behind it. */
  ghost predicate GotOn(deps: Graph, open: seq<nat>, ordered: seq<nat>, stack: seq<Frame>,
                        open': seq<nat>, ordered': seq<nat>, stack': seq<Frame>)
    requires Below(open, |deps|) && Below(open', |deps|)
  {
    var seen, seen' := |open| + |ordered|, |open'| + |ordered'|;
    || seen' > seen
    || (seen' == seen && |ordered'| > |ordered|)
    || (seen' == seen && |ordered'| == |ordered| && EdgesLeft(deps, open', stack') < EdgesLeft(deps, open, stack))
  }

  method SearchOn(deps: Graph, placed: seq<bool>, open: seq<nat>, ordered: seq<nat>, stack: seq<Frame>)
    returns (placed': seq<bool>, open': seq<nat>, ordered': seq<nat>, stack': seq<Frame>, cycle: seq<nat>)
    requires Closed(deps) && Searching(deps, placed, open, ordered, stack) && stack != []
    ensures cycle != [] ==> SimpleCycle(deps, cycle)
    ensures cycle == [] ==> Searching(deps, placed', open', ordered', stack') && ordered <= ordered'
    ensures cycle == [] ==> GotOn(deps, open, ordered, stack, open', ordered', stack')
    ensures cycle == [] ==> stack[0].0 in ordered' || (stack' != [] && stack'[0].0 == stack[0].0)
  {
    var next;
    placed', ordered' := placed, ordered;
    cycle, open', stack', next := TakeTop(deps, placed, open, ordered, stack);
    if cycle != [] {
      return;
    }
    if next < |deps[open'[|open'| - 1]]| {
      stack' := FollowEdge(deps, placed, open', ordered, stack', next);
    } else {
      placed', open', ordered' := PlaceTop(deps, placed, open', ordered, stack');
    }
  }

  /** Takes the top frame off; a node met for the first time is opened, one met while it is
      open closes a cycle. */
  method TakeTop(deps: Graph, placed: seq<bool>, open: seq<nat>, ordered: seq<nat>, stack: seq<Frame>)
    returns (cycle: seq<nat>, open': seq<nat>, frames: seq<Frame>, next: nat)
    requires Closed(deps) && Searching(deps, placed, open, ordered, stack) && stack != []
    ensures frames == stack[..|stack| - 1] && next == stack[|stack| - 1].1
    ensures cycle != [] ==> SimpleCycle(deps, cycle)
    ensures cycle == []
      ==> Standing(deps, placed, open', ordered, frames, next) && open'[|open'| - 1] == stack[|stack| - 1].0
    ensures cycle == [] ==> if next == 0 then |open'| == |open| + 1 else open' == open && |stack| == |open|
  {
    var node;
    node, next := stack[|stack| - 1].0, stack[|stack| - 1].1;
    cycle, open', frames := [], open, stack[..|stack| - 1];
    if next == 0 {
      var start := Position(open, node);
      if start.Some? {
        MetAgain(deps, placed, open, ordered, stack, start.value);
        cycle := open[start.value..] + [node];
      } else {
        EnterStands(deps, placed, open, ordered, stack);
        open' := open + [node];
      }
    } else {
      PopStands(deps, placed, open, ordered, stack);
    }
  }

  method PlaceTop(deps: Graph, placed: seq<bool>, open: seq<nat>, ordered: seq<nat>, frames: seq<Frame>)
    returns (placed': seq<bool>, open': seq<nat>, ordered': seq<nat>)
    requires Closed(deps) && open != [] && open[|open| - 1] < |deps|
    requires Standing(deps, placed, open, ordered, frames, |deps[open[|open| - 1]]|)
    ensures Searching(deps, placed', open', ordered', frames)
    ensures open' == open[..|open| - 1] && ordered' == ordered + [open[|open| - 1]]
  {
    PlaceSearches(deps, placed, open, ordered, frames);
    var node := open[|open| - 1];
    placed', open', ordered' := placed[node := true], open[..|open| - 1], ordered + [node];
  }

  /** Goes on with the next dependency of the innermost open node, and down it if it is new. */
  method FollowEdge(deps: Graph, placed: seq<bool>, open: seq<nat>, ordered: seq<nat>, frames: seq<Frame>, next: nat)
    returns (stack: seq<Frame>)
    requires Closed(deps) && Standing(deps, placed, open, ordered, frames, next)
    requires next < |deps[open[|open| - 1]]|
    ensures Searching(deps, placed, open, ordered, stack)
    ensures |stack| >= |frames| + 1 && stack[..|frames|] == frames && stack[|frames|] == (open[|open| - 1], next + 1)
    ensures EdgesLeft(deps, open, stack) == |deps[open[|open| - 1]]| - next - 1
  {
    AdvanceSearches(deps, placed, open, ordered, frames, next);
    var node := open[|open| - 1];
    var dep := deps[node][next];
    stack := frames + [(node, next + 1)] + if placed[dep] then [] else [(dep, 0)];
  }

  lemma AllOrdered(ordered: seq<nat>, n: nat)
    requires Distinct(ordered) && Below(ordered, n) && forall i | 0 <= i < n :: i in ordered
    ensures |ordered| == n
  {
    DistinctFits(ordered, n);
    var nodes := set i | 0 <= i < |ordered| :: ordered[i];
    SizeOfDistinct(ordered);
    forall i | i in Range(n)
      ensures i in nodes
    {
      assert i in ordered;
    }
    SubsetSize(Range(n), nodes);
  }

  // ----- the search decides -----

  /** A graph with a topological order has no closed walk, so the search reports a cycle
      exactly when there is one. */
  lemma {:induction false} OrderForbidsCycles(deps: Graph, order: seq<nat>, c: seq<nat>)
    requires Topological(deps, order)
    ensures !Cycle(deps, c)
  {
    if Cycle(deps, c) {
      AllInOrder(deps, order);
      WalkDescends(deps, order, c, |c| - 1);
    }
  }

  lemma AllInOrder(deps: Graph, order: seq<nat>)
    requires Topological(deps, order)
    ensures forall n | 0 <= n < |deps| :: n in order && Position(order, n).Some?
  {
    DistinctFits(order, |deps|);
  }

  lemma {:induction false} WalkDescends(deps: Graph, order: seq<nat>, c: seq<nat>, k: nat)
    requires Topological(deps, order) && Cycle(deps, c) && 0 < k < |c|
    ensures Position(order, c[0]).Some? && Position(order, c[k]).Some?
    ensures Position(order, c[k]).value < Position(order, c[0]).value
    decreases k
  {
    AllInOrder(deps, order);
    if k > 1 {
      WalkDescends(deps, order, c, k - 1);
    }
    var p := Position(order, c[k - 1]).value;
    assert c[k] in deps[order[p]];
    var q :| 0 <= q < p && order[..p][q] == c[k];
    assert order[q] == c[k] && order[Position(order, c[k]).value] == c[k];
  }

  // ----- rows -----

  datatype Entry = Entry(id: string, external: seq<string>)

  const CLIENT := "/client"

  /** `<id>/client` names the same exports as `<id>`. */
  function StripClientSuffix(name: string): string {
    if |name| >= |CLIENT| && name[|name| - |CLIENT|..] == CLIENT then name[..|name| - |CLIENT|] else name
  }

  /** The row an id stands for: the last one, when several carry it. */
  function RowOf(entries: seq<Entry>, id: string): (at: Option<nat>)
    ensures at.Some? ==> at.value < |entries|
  {
    if entries == [] then None
    else if entries[|entries| - 1].id == id then Some(|entries| - 1)
    else RowOf(entries[..|entries| - 1], id)
  }

  /** An exact id wins over the name without its suffix; an unknown name is no dependency. */
  function Resolve(entries: seq<Entry>, name: string): (at: Option<nat>)
    ensures at.Some? ==> at.value < |entries|
  {
    var exact := RowOf(entries, name);
    if exact.Some? then exact else RowOf(entries, StripClientSuffix(name))
  }

  function DepsOf(entries: seq<Entry>, names: seq<string>): (ds: seq<nat>)
    ensures forall k | 0 <= k < |ds| :: ds[k] < |entries|
  {
    if names == [] then []
    else
      var at := Resolve(entries, names[|names| - 1]);
      DepsOf(entries, names[..|names| - 1]) + (if at.Some? then [at.value] else [])
  }

  function GraphOf(entries: seq<Entry>): (deps: Graph)
    ensures |deps| == |entries| && Closed(deps)
  {
    seq(|entries|, i requires 0 <= i < |entries| => DepsOf(entries, entries[i].external))
  }

  /** Row `i` requests a name it answers itself, with the suffix or without. */
  predicate AsksItself(entries: seq<Entry>, i: nat, name: string) {
    RowOf(entries, name) == Some(i) || RowOf(entries, StripClientSuffix(name)) == Some(i)
  }

  predicate SelfRequest(entries: seq<Entry>) {
    exists i, k | 0 <= i < |entries| && 0 <= k < |entries[i].external| :: AsksItself(entries, i, entries[i].external[k])
  }

  lemma {:induction false} RowOfIff(entries: seq<Entry>, id: string)
    ensures RowOf(entries, id).Some? <==> exists j | 0 <= j < |entries| :: entries[j].id == id
    ensures RowOf(entries, id).Some? ==> entries[RowOf(entries, id).value].id == id
  {
    if entries != [] {
      RowOfIff(entries[..|entries| - 1], id);
    }
  }

  /** A request refused as a request for the row itself would have been answered by another row exactly when it asks
      with the suffix and some row goes by the whole name. */
  lemma RefusedThoughAnsweredIff(entries: seq<Entry>, i: nat, name: string)
    requires i < |entries| && AsksItself(entries, i, name)
    ensures Resolve(entries, name).Some?
    ensures Resolve(entries, name) != Some(i)
      <==> entries[i].id != name && exists j | 0 <= j < |entries| :: entries[j].id == name
  {
    RowOfIff(entries, name);
    RowOfIff(entries, StripClientSuffix(name));
  }

  // ----- the same, told by the ids of the rows -----

  /** The last row listed with its id; an earlier one with the same id is never asked. */
  predicate Speaks(entries: seq<Entry>, j: int) {
    0 <= j < |entries| && forall k | j < k < |entries| :: entries[k].id != entries[j].id
  }

  /** Row `j` answers a requested name: by that id, or without its `/client` when no row goes by the whole. */
  predicate AnsweredBy(entries: seq<Entry>, name: string, j: int) {
    && Speaks(entries, j)
    && (entries[j].id == name
        || (name == entries[j].id + "/client" && forall k | 0 <= k < |entries| :: entries[k].id != name))
  }

  predicate Asks(entries: seq<Entry>, i: int, j: int) {
    0 <= i < |entries| && exists n | 0 <= n < |entries[i].external| :: AnsweredBy(entries, entries[i].external[n], j)
  }

  /** Row `i` requests its own id, with `/client` or without. */
  predicate AsksForItself(entries: seq<Entry>, i: int, name: string) {
    Speaks(entries, i) && (name == entries[i].id || name == entries[i].id + "/client")
  }

  lemma {:induction false} RowOfSpeaks(entries: seq<Entry>, id: string, j: int)
    ensures RowOf(entries, id) == Some(j) <==> Speaks(entries, j) && entries[j].id == id
  {
    if entries != [] && entries[|entries| - 1].id != id {
      RowOfSpeaks(entries[..|entries| - 1], id, j);
    }
  }

  lemma StripIff(name: string, id: string)
    ensures StripClientSuffix(name) == id <==> name == id + "/client" || (name == id && StripClientSuffix(id) == id)
  {
    if name == id + "/client" {
      assert name[|name| - 7..] == "/client" && name[..|name| - 7] == id;
    }
    if StripClientSuffix(name) == id && name != id {
      assert name == name[..|name| - 7] + name[|name| - 7..];
    }
  }

  lemma ResolveIff(entries: seq<Entry>, name: string, j: int)
    ensures Resolve(entries, name) == Some(j) <==> AnsweredBy(entries, name, j)
  {
    RowOfIff(entries, name);
    RowOfSpeaks(entries, name, j);
    var stripped := StripClientSuffix(name);
    RowOfSpeaks(entries, stripped, j);
    StripIff(name, stripped);
    if 0 <= j < |entries| {
      StripIff(name, entries[j].id);
    }
  }

  lemma AsksItselfIff(entries: seq<Entry>, i: int, name: string)
    requires 0 <= i < |entries|
    ensures AsksItself(entries, i, name) <==> AsksForItself(entries, i, name)
  {
    RowOfSpeaks(entries, name, i);
    RowOfSpeaks(entries, StripClientSuffix(name), i);
    StripIff(name, entries[i].id);
  }

  lemma {:induction false} DepsHave(entries: seq<Entry>, names: seq<string>, j: nat)
    ensures j in DepsOf(entries, names) <==> exists n | 0 <= n < |names| :: AnsweredBy(entries, names[n], j)
  {
    if names != [] {
      var front, last := names[..|names| - 1], names[|names| - 1];
      DepsHave(entries, front, j);
      ResolveIff(entries, last, j);
      assert forall n | 0 <= n < |front| :: front[n] == names[n];
      assert j in DepsOf(entries, names) <==> j in DepsOf(entries, front) || Resolve(entries, last) == Some(j);
    }
  }

  /** The graph that is searched has just these edges. */
  lemma EdgeIff(entries: seq<Entry>, i: nat, j: nat)
    requires i < |entries|
    ensures j in GraphOf(entries)[i] <==> Asks(entries, i, j)
  {
    DepsHave(entries, entries[i].external, j);
  }

  /** Every row once, and each behind the rows that answer its requests. */
  ghost predicate Sorted(entries: seq<Entry>, at: seq<nat>) {
    && |at| == |entries| && Below(at, |entries|) && Distinct(at)
    && forall q, j: nat | 0 <= q < |at| && Asks(entries, at[q], j) :: j in at[..q]
  }

  /** A walk along requests that comes back. */
  ghost predicate Circle(entries: seq<Entry>, c: seq<nat>) {
    |c| >= 2 && c[0] == c[|c| - 1] && forall k | 0 <= k < |c| - 1 :: Asks(entries, c[k], c[k + 1])
  }

  lemma SortedIff(entries: seq<Entry>, at: seq<nat>)
    ensures Topological(GraphOf(entries), at) <==> Sorted(entries, at)
  {
    var deps := GraphOf(entries);
    if |at| == |entries| && Below(at, |entries|) {
      forall q, j: nat | 0 <= q < |at|
        ensures j in deps[at[q]] <==> Asks(entries, at[q], j)
      {
        EdgeIff(entries, at[q], j);
      }
    }
  }

  lemma CircleIff(entries: seq<Entry>, c: seq<nat>)
    ensures Cycle(GraphOf(entries), c) <==> Circle(entries, c)
  {
    if |c| >= 2 && c[0] == c[|c| - 1] {
      if Circle(entries, c) {
        forall k | 0 <= k < |c|
          ensures c[k] < |entries|
        {
          var from := if k < |c| - 1 then k else 0;
          assert c[from] == c[k] && Asks(entries, c[from], c[from + 1]);
        }
      }
      forall k | 0 <= k < |c| - 1 && c[k] < |entries|
        ensures c[k + 1] in GraphOf(entries)[c[k]] <==> Asks(entries, c[k], c[k + 1])
      {
        EdgeIff(entries, c[k], c[k + 1]);
      }
    }
  }

  const TWIN_ROWS := [Entry("a", ["a/client"]), Entry("a/client", [])]

  lemma TwinRowsResolve()
    ensures RowOf(TWIN_ROWS, "a") == Some(0) && RowOf(TWIN_ROWS, "a/client") == Some(1)
    ensures StripClientSuffix("a/client") == "a"
  {
    var first := TWIN_ROWS[..1];
    assert RowOf(first, "a") == Some(0) && RowOf(TWIN_ROWS, "a") == RowOf(first, "a");
  }

  lemma TwinRowsGraph()
    ensures GraphOf(TWIN_ROWS) == [[1], []]
  {
    TwinRowsResolve();
    var asked := ["a/client"];
    assert asked[..0] == [] && DepsOf(TWIN_ROWS, []) == [];
    assert DepsOf(TWIN_ROWS, asked) == [] + [1];
    var deps := GraphOf(TWIN_ROWS);
    assert deps[0] == DepsOf(TWIN_ROWS, TWIN_ROWS[0].external) == [1];
    assert deps[1] == DepsOf(TWIN_ROWS, TWIN_ROWS[1].external) == [];
  }

  lemma TwinRowsRefused()
    ensures SelfRequest(TWIN_ROWS)
  {
    TwinRowsResolve();
    RequestsItself(TWIN_ROWS, 0, 0);
  }

  lemma RequestsItself(entries: seq<Entry>, i: nat, k: nat)
    requires i < |entries| && k < |entries[i].external| && AsksItself(entries, i, entries[i].external[k])
    ensures SelfRequest(entries)
  {
  }

  /** Two rows that could well be put in order, and are refused. */
  lemma RefusedThoughOrderable()
    ensures SelfRequest(TWIN_ROWS) && Topological(GraphOf(TWIN_ROWS), [1, 0])
  {
    TwinRowsRefused();
    TwinRowsGraph();
    PairOrdered(GraphOf(TWIN_ROWS), [1, 0]);
  }

  lemma PairOrdered(deps: Graph, order: seq<nat>)
    requires deps == [[1], []] && order == [1, 0]
    ensures Topological(deps, order)
  {
    forall p, d | 0 <= p < 2 && d in deps[order[p]]
      ensures d in order[..p]
    {
      assert p == 1 && d == 1 && order[..1][0] == 1;
    }
  }

  datatype Graphed = InOrder(rows: seq<Entry>) | AsksSelf(id: string, name: string) | InCycle(ids: seq<string>)

  function IdsOf(entries: seq<Entry>, at: seq<nat>): seq<string>
    requires Below(at, |entries|)
  {
    seq(|at|, i requires 0 <= i < |at| => entries[at[i]].id)
  }

  function Pick(entries: seq<Entry>, at: seq<nat>): seq<Entry>
    requires Below(at, |entries|)
  {
    seq(|at|, i requires 0 <= i < |at| => entries[at[i]])
  }

  /** The first row that requests itself. */
  method FindSelfRequest(entries: seq<Entry>) returns (found: Option<(nat, string)>)
    ensures found == None ==> forall i, n | 0 <= i < |entries| && 0 <= n < |entries[i].external| ::
      !AsksForItself(entries, i, entries[i].external[n])
    ensures found.Some? ==>
      found.value.0 < |entries| && exists n | 0 <= n < |entries[found.value.0].external| ::
        entries[found.value.0].external[n] == found.value.1 && AsksForItself(entries, found.value.0, found.value.1)
    ensures found.Some? ==> forall i, n | 0 <= i < found.value.0 && 0 <= n < |entries[i].external| ::
      !AsksForItself(entries, i, entries[i].external[n])
  {
    for i := 0 to |entries|
      invariant forall j, k | 0 <= j < i && 0 <= k < |entries[j].external| ::
        !AsksForItself(entries, j, entries[j].external[k])
    {
      for k := 0 to |entries[i].external|
        invariant forall l | 0 <= l < k :: !AsksForItself(entries, i, entries[i].external[l])
      {
        var name := entries[i].external[k];
        AsksItselfIff(entries, i, name);
        if AsksItself(entries, i, name) {
          return Some((i, name));
        }
      }
    }
    found := None;
  }

  /** An order of the graph leaves no way round. */
  lemma SortedForbidsCircles(entries: seq<Entry>, at: seq<nat>, c: seq<nat>)
    requires Sorted(entries, at)
    ensures !Circle(entries, c)
  {
    SortedIff(entries, at);
    CircleIff(entries, c);
    if Circle(entries, c) {
      OrderForbidsCycles(GraphOf(entries), at, c);
    }
  }

  /** What the caller gets: a self request is refused first; otherwise the rows come out in an
      order that puts every resolved dependency before its consumer, all of them and none
      twice, exactly when the graph has no cycle, and else a real cycle is named. */
  method OrderByModuleGraph(entries: seq<Entry>) returns (r: Graphed, ghost at: seq<nat>)
    ensures r.AsksSelf? <==>
      exists i, n | 0 <= i < |entries| && 0 <= n < |entries[i].external| ::
        AsksForItself(entries, i, entries[i].external[n])
    ensures r.AsksSelf? ==> exists i | 0 <= i < |entries| ::
      entries[i].id == r.id && r.name in entries[i].external && AsksForItself(entries, i, r.name)
    ensures r.InOrder? ==> Sorted(entries, at) && r.rows == Pick(entries, at)
    ensures r.InCycle? ==> Circle(entries, at) && Distinct(at[..|at| - 1])
    ensures r.InCycle? ==> Below(at, |entries|) && r.ids == IdsOf(entries, at)
    ensures !r.AsksSelf? ==> (r.InCycle? <==> exists c :: Circle(entries, c))
  {
    var asked := FindSelfRequest(entries);
    if asked.Some? {
      return AsksSelf(entries[asked.value.0].id, asked.value.1), [];
    }
    var found := Search(GraphOf(entries));
    match found {
      case Ordered(order) =>
        at := order;
        SortedIff(entries, order);
        forall c
          ensures !Circle(entries, c)
        {
          SortedForbidsCircles(entries, order, c);
        }
        r := InOrder(Pick(entries, order));
      case CycleFound(cycle) =>
        at := cycle;
        CircleIff(entries, cycle);
        r := InCycle(IdsOf(entries, cycle));
    }
  }
}
