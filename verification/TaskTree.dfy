/**
 * Cascading failure over a tree of tasks (tasks/task_tree.go).
 *
 * Nodes are mutable and refer to their children; failing one walks everything
 * below it. Only live tasks change, each is signalled once, and an outcome
 * once reached stays. The broadcasts and the manager are not part of the model.
 */
module TaskTree {
  import opened Common

  datatype Status = Created | Running | Completed | Failed

  predicate Terminal(s: Status) { s.Completed? || s.Failed? }

  /** signals counts how often the middleware was told of the end: the sends of signalMiddlewareEnd. */
  datatype NodeState = NodeState(status: Status, error: string, ended: bool, endErr: Option<string>, signals: nat)

  /** signalMiddlewareEnd, of None for a nil error. */
  function Signalled(s: NodeState, err: Option<string>): NodeState {
    if s.ended then s else s.(ended := true, endErr := err, signals := s.signals + 1)
  }

  /** What failing does to a node: nothing, unless it is live. */
  function Failing(s: NodeState, msg: string): NodeState {
    if Terminal(s.status) then s else Signalled(s.(status := Failed, error := msg), Some(msg))
  }

  function Completing(s: NodeState): NodeState {
    if Terminal(s.status) then s else Signalled(s.(status := Completed), None)
  }

  /** A task has told its middleware of its end exactly if it has ended, and of the outcome it shows. */
  predicate Told(s: NodeState) {
    && s.ended == Terminal(s.status)
    && (s.ended ==> s.signals == 1 && s.endErr == if s.status.Failed? then Some(s.error) else None)
    && (!s.ended ==> s.signals == 0)
  }

  class TaskNode {
    const id: string
    var children: seq<TaskNode>
    ghost var below: set<TaskNode>  // its children and theirs
    var status: Status
    var error: string
    var ended: bool
    var endErr: Option<string>
    var signals: nat

    ghost function View(): NodeState
      reads this
    {
      NodeState(status, error, ended, endErr, signals)
    }

    constructor (id: string)
      ensures this.id == id && children == [] && below == {} && View() == NodeState(Created, "", false, None, 0)
              && Told(View())
    {
      this.id := id;
      children, below := [], {};
      status, error, ended, endErr, signals := Created, "", false, None, 0;
    }

    method SignalMiddlewareEnd(err: Option<string>)
      modifies this`ended, this`endErr, this`signals
      ensures View() == Signalled(old(View()), err)
    {
      if ended { return; }
      ended, endErr, signals := true, err, signals + 1;
    }

    method SetStatus(s: Status)
      requires !s.Failed?
      modifies this`status, this`ended, this`endErr, this`signals
      ensures View() == if s.Completed? then Completing(old(View()))
                        else if Terminal(old(status)) then old(View()) else old(View()).(status := s)
      ensures old(Told(View())) ==> Told(View())
      ensures Terminal(old(status)) ==> View() == old(View())
    {
      if status.Completed? || status.Failed? { return; }
      status := s;
      if s.Completed? { SignalMiddlewareEnd(None); }
    }

    method SetFailed(msg: string)
      modifies this`status, this`error, this`ended, this`endErr, this`signals
      ensures View() == Failing(old(View()), msg)
      ensures Terminal(status) && (old(Told(View())) ==> Told(View()))
      ensures Terminal(old(status)) ==> View() == old(View())
    {
      if status.Completed? || status.Failed? { return; }
      status, error := Failed, msg;
      SignalMiddlewareEnd(Some(msg));
    }

    method CompleteTop()
      modifies this`status, this`ended, this`endErr, this`signals
      ensures View() == Completing(old(View()))
      ensures Terminal(status) && (old(Told(View())) ==> Told(View()))
      ensures Terminal(old(status)) ==> View() == old(View())
    {
      if !status.Running? && !status.Created? { return; }
      status := Completed;
      SignalMiddlewareEnd(None);
    }
  }

  /** What is below each node, as a value. */
  ghost function Belows(nodes: set<TaskNode>): map<TaskNode, set<TaskNode>>
    reads nodes`below
  {
    map n | n in nodes :: n.below
  }

  /** The children of each node, as a value. */
  ghost function Kids(nodes: set<TaskNode>): map<TaskNode, seq<TaskNode>>
    reads nodes`children
  {
    map n | n in nodes :: n.children
  }

  /** Some nodes and all that is below them. */
  ghost function Subtrees(belows: map<TaskNode, set<TaskNode>>, ns: seq<TaskNode>): set<TaskNode> {
    (set c | c in ns) + set c, m | c in ns && c in belows && m in belows[c] :: m
  }

  /** What is below a node is its children and what is below them, and no node is below itself. */
  ghost predicate Tree(nodes: set<TaskNode>)
    reads nodes`children, nodes`below
  {
    forall n :: n in nodes ==> Rooted(nodes, Belows(nodes), n, n.children)
  }

  ghost predicate Rooted(nodes: set<TaskNode>, belows: map<TaskNode, set<TaskNode>>, n: TaskNode,
                         children: seq<TaskNode>)
  {
    && (forall c :: c in children ==> c in nodes)
    && n in belows && belows[n] <= nodes && n !in belows[n] && belows[n] == Subtrees(belows, children)
  }

  ghost method MarkAbove(nodes: set<TaskNode>, n: TaskNode, child: TaskNode)
    modifies nodes`below
    ensures forall m :: m in nodes ==>
      m.below == if m == n || n in old(m.below) then old(m.below) + {child} else old(m.below)
  {
    var above := set m | m in nodes && (m == n || n in m.below);
    forall m | m in above { m.below := m.below + {child}; }
  }

  /** Appends the leaf, and records whom it is below. */
  method LinkChild(ghost nodes: set<TaskNode>, n: TaskNode, child: TaskNode)
    requires n in nodes && child !in nodes
    modifies n`children, nodes`below
    ensures Kids(nodes) == old(Kids(nodes))[n := old(n.children) + [child]]
    ensures Belows(nodes) == Linked(old(Belows(nodes)), n, child)
  {
    n.children := n.children + [child];
    MarkAbove(nodes, n, child);
  }

  ghost function Linked(belows: map<TaskNode, set<TaskNode>>, n: TaskNode, child: TaskNode)
    : map<TaskNode, set<TaskNode>>
  {
    map m | m in belows :: if m == n || n in belows[m] then belows[m] + {child} else belows[m]
  }

  lemma TreeIsRooted(nodes: set<TaskNode>)
    ensures Tree(nodes) <==> forall n :: n in nodes ==> Rooted(nodes, Belows(nodes), n, Kids(nodes)[n])
  {
  }

  /** addChild: a new leaf under n is below n and whatever n is below. */
  method AddChild(ghost nodes: set<TaskNode>, n: TaskNode, child: TaskNode)
    requires Tree(nodes) && n in nodes && child !in nodes && child.children == [] && child.below == {}
    modifies n`children, nodes`below
    ensures n.children == old(n.children) + [child]
    ensures Belows(nodes) == Linked(old(Belows(nodes)), n, child)
    ensures Tree(nodes + {child})
  {
    ghost var kids: map<TaskNode, seq<TaskNode>>, nodes': set<TaskNode> := Kids(nodes), nodes + {child};
    ghost var belows: map<TaskNode, set<TaskNode>> := Belows(nodes);
    TreeIsRooted(nodes);
    LinkChild(nodes, n, child);
    assert n.children == Kids(nodes)[n];
    assert Belows(nodes') == Linked(belows, n, child)[child := {}];
    assert Kids(nodes') == kids[n := kids[n] + [child]][child := []];
    TreeAfter(nodes, kids, belows, Belows(nodes'), n, child);
    TreeIsRooted(nodes');
  }

  lemma TreeAfter(nodes: set<TaskNode>, kids: map<TaskNode, seq<TaskNode>>, belows: map<TaskNode, set<TaskNode>>,
                  belows': map<TaskNode, set<TaskNode>>, n: TaskNode, child: TaskNode)
    requires kids.Keys == nodes && forall m :: m in nodes ==> Rooted(nodes, belows, m, kids[m])
    requires n in nodes && child !in nodes
    requires belows.Keys == nodes && belows' == Linked(belows, n, child)[child := {}]
    ensures var kids' := kids[n := kids[n] + [child]][child := []];
            forall m :: m in nodes + {child} ==> Rooted(nodes + {child}, belows', m, kids'[m])
  {
    var kids' := kids[n := kids[n] + [child]][child := []];
    forall m | m in nodes + {child} ensures Rooted(nodes + {child}, belows', m, kids'[m]) {
      if m == child {
        assert Subtrees(belows', []) == {};
      } else {
        RootedAfter(nodes, belows, belows', kids[m], m, kids[n], n, child);
      }
    }
  }

  lemma RootedAfter(nodes: set<TaskNode>, belows: map<TaskNode, set<TaskNode>>, belows': map<TaskNode, set<TaskNode>>,
                    children: seq<TaskNode>, m: TaskNode, siblings: seq<TaskNode>, n: TaskNode, child: TaskNode)
    requires Rooted(nodes, belows, m, children) && Rooted(nodes, belows, n, siblings) && child !in nodes
    requires m in nodes && belows.Keys == nodes && belows' == Linked(belows, n, child)[child := {}]
    ensures Rooted(nodes + {child}, belows', m, if m == n then children + [child] else children)
  {
    assert forall x :: x in belows ==> belows'[x] == belows[x] + if x == n || n in belows[x] then {child} else {};
    LeafAdded(belows, belows', children, m, n, child);
  }

  /** In the new table of what is below what, the leaf is below the nodes above it and nothing else has changed. */
  lemma LeafAdded(belows: map<TaskNode, set<TaskNode>>, belows': map<TaskNode, set<TaskNode>>, children: seq<TaskNode>,
                  m: TaskNode, n: TaskNode, child: TaskNode)
    requires m in belows && n in belows && child !in belows
    requires belows'.Keys == belows.Keys + {child} && belows'[child] == {}
    requires forall x :: x in belows ==> belows'[x] == belows[x] + if x == n || n in belows[x] then {child} else {}
    requires forall c :: c in children ==> c in belows
    requires belows[m] == Subtrees(belows, children) && n !in belows[n]
    ensures belows'[m] == Subtrees(belows', if m == n then children + [child] else children)
  {
    var children' := if m == n then children + [child] else children;
    assert forall c :: c in children' <==> c in children || (m == n && c == child);
    forall x ensures x in belows'[m] <==> x in Subtrees(belows', children') {
      if x == child {
        if m != n && n in belows[m] {
          if n in children {
            assert x in belows'[n];
          } else {
            var c :| c in children && c in belows && n in belows[c];
            assert x in belows'[c];
          }
        }
      } else {
        assert x in belows'[m] <==> x in Subtrees(belows, children);
      }
    }
  }

  ghost function Views(nodes: set<TaskNode>): map<TaskNode, NodeState>
    reads nodes
  {
    map n | n in nodes :: n.View()
  }

  /** Every node of `failed` is as failing leaves it, and no other has changed. */
  ghost function FailAll(views: map<TaskNode, NodeState>, failed: set<TaskNode>, msg: string): map<TaskNode, NodeState>
  {
    map n | n in views :: if n in failed then Failing(views[n], msg) else views[n]
  }

  lemma FailAllTwice(views: map<TaskNode, NodeState>, a: set<TaskNode>, b: set<TaskNode>, msg: string)
    ensures FailAll(FailAll(views, a, msg), b, msg) == FailAll(views, a + b, msg)
  {
  }

  lemma NextPrefix<T>(s: seq<T>, i: nat)
    requires i < |s|
    ensures s[..i + 1] == s[..i] + [s[i]]
  {
  }

  lemma WholePrefix<T>(s: seq<T>)
    ensures s[..|s|] == s
  {
  }

  lemma SubtreesGrow(belows: map<TaskNode, set<TaskNode>>, ns: seq<TaskNode>, n: TaskNode)
    requires n in belows
    ensures Subtrees(belows, ns + [n]) == Subtrees(belows, ns) + ({n} + belows[n])
  {
    assert n in ns + [n];
    assert forall c :: c in ns ==> c in ns + [n];
    assert forall c :: c in ns + [n] ==> c in ns || c == n;
  }

  lemma ChildIsSmaller(nodes: set<TaskNode>, n: TaskNode, c: TaskNode)
    requires Tree(nodes) && n in nodes && c in n.children
    ensures c in nodes && c.below < n.below
  {
    var belows := Belows(nodes);
    assert belows[c] == c.below;
    assert c in Subtrees(belows, n.children) && forall m :: m in c.below ==> m in Subtrees(belows, n.children);
  }

  /** The section of failChildren for one child. */
  method FailChild(ghost nodes: set<TaskNode>, child: TaskNode, msg: string)
    requires child in nodes
    modifies nodes`status, nodes`error, nodes`ended, nodes`endErr, nodes`signals
    ensures Views(nodes) == FailAll(old(Views(nodes)), {child}, msg)
  {
    var signaled := false;
    if child.status.Running? || child.status.Created? {
      child.status, child.error := Failed, msg;
      signaled := true;
    }
    if signaled { child.SignalMiddlewareEnd(Some(msg)); }
  }

  lemma FailedUpTo(views: map<TaskNode, NodeState>, belows: map<TaskNode, set<TaskNode>>, children: seq<TaskNode>,
                   i: nat, msg: string)
    requires i < |children| && children[i] in belows
    ensures FailAll(FailAll(views, Subtrees(belows, children[..i]), msg), {children[i]} + belows[children[i]], msg)
         == FailAll(views, Subtrees(belows, children[..i + 1]), msg)
  {
    NextPrefix(children, i);
    SubtreesGrow(belows, children[..i], children[i]);
    FailAllTwice(views, Subtrees(belows, children[..i]), {children[i]} + belows[children[i]], msg);
  }

  /** A child and all that is below it. */
  method FailSubtree(ghost nodes: set<TaskNode>, child: TaskNode, msg: string)
    requires Tree(nodes) && child in nodes
    modifies nodes`status, nodes`error, nodes`ended, nodes`endErr, nodes`signals
    ensures Views(nodes) == FailAll(old(Views(nodes)), {child} + child.below, msg)
    decreases child.below, 2
  {
    FailChild(nodes, child, msg);
    FailChildren(nodes, child, msg);
    FailAllTwice(old(Views(nodes)), {child}, child.below, msg);
  }

  /** One round of failChildren's loop. */
  method FailNext(ghost nodes: set<TaskNode>, n: TaskNode, children: seq<TaskNode>, i: nat, msg: string,
                  ghost views: map<TaskNode, NodeState>, ghost belows: map<TaskNode, set<TaskNode>>)
    requires Tree(nodes) && n in nodes && children == n.children && i < |children| && belows == Belows(nodes)
    requires Views(nodes) == FailAll(views, Subtrees(belows, children[..i]), msg)
    modifies nodes`status, nodes`error, nodes`ended, nodes`endErr, nodes`signals
    ensures Views(nodes) == FailAll(views, Subtrees(belows, children[..i + 1]), msg)
    decreases n.below, 0
  {
    ChildIsSmaller(nodes, n, children[i]);
    FailedUpTo(views, belows, children, i, msg);
    FailSubtree(nodes, children[i], msg);
  }

  /** failChildren. */
  method FailChildren(ghost nodes: set<TaskNode>, n: TaskNode, msg: string)
    requires Tree(nodes) && n in nodes
    modifies nodes`status, nodes`error, nodes`ended, nodes`endErr, nodes`signals
    ensures Views(nodes) == FailAll(old(Views(nodes)), n.below, msg)
    decreases n.below, 1
  {
    var children := n.children;
    ghost var views, belows := Views(nodes), Belows(nodes);
    assert Subtrees(belows, children[..0]) == {};
    for i := 0 to |children|
      invariant Views(nodes) == FailAll(views, Subtrees(belows, children[..i]), msg)
    {
      FailNext(nodes, n, children, i, msg, views, belows);
    }
    WholePrefix(children);
  }

  /**
   * What a cascade does to the nodes it reaches: all have ended after it. Only live ones have changed, to failed with
   * the given message, and each has told its middleware so exactly once; an earlier outcome is kept as it was.
   */
  ghost predicate Cascaded(before: map<TaskNode, NodeState>, after: map<TaskNode, NodeState>, reached: set<TaskNode>,
                           msg: string)
  {
    forall m :: m in reached && m in before && m in after ==>
      && Terminal(after[m].status) && Told(after[m])
      && (Terminal(before[m].status) ==> after[m] == before[m])
      && (!Terminal(before[m].status) ==>
            && after[m].status.Failed? && after[m].error == msg && after[m].endErr == Some(msg)
            && before[m].signals == 0 && after[m].signals == 1)
  }

  ghost predicate AllTold(views: map<TaskNode, NodeState>) { forall m :: m in views ==> Told(views[m]) }

  lemma FailAllCascades(views: map<TaskNode, NodeState>, failed: set<TaskNode>, msg: string)
    requires AllTold(views)
    ensures Cascaded(views, FailAll(views, failed, msg), failed, msg) && AllTold(FailAll(views, failed, msg))
  {
  }

  lemma FailTopViews(views: map<TaskNode, NodeState>, n: TaskNode, below: set<TaskNode>, msg: string,
                     walked: map<TaskNode, NodeState>, after: map<TaskNode, NodeState>)
    requires n in views && n !in below && !Terminal(views[n].status)
    requires var failed := views[n].(status := Failed, error := msg);
      walked == FailAll(views[n := failed], below, msg) && after == walked[n := Signalled(failed, Some(msg))]
    ensures after == FailAll(views, {n} + below, msg)
  {
  }

  method MarkFailed(ghost nodes: set<TaskNode>, n: TaskNode, msg: string)
    requires n in nodes
    modifies n`status, n`error
    ensures Views(nodes) == old(Views(nodes))[n := old(n.View()).(status := Failed, error := msg)]
  {
    n.status, n.error := Failed, msg;
  }

  method SignalEnd(ghost nodes: set<TaskNode>, n: TaskNode, err: Option<string>)
    requires n in nodes
    modifies n`ended, n`endErr, n`signals
    ensures Views(nodes) == old(Views(nodes))[n := Signalled(old(n.View()), err)]
  {
    n.SignalMiddlewareEnd(err);
  }

  /** failTop, once it has found the task live. */
  method FailLiveTop(ghost nodes: set<TaskNode>, n: TaskNode, msg: string)
    requires Tree(nodes) && n in nodes && !Terminal(n.status)
    modifies nodes`status, nodes`error, nodes`ended, nodes`endErr, nodes`signals
    ensures Views(nodes) == FailAll(old(Views(nodes)), {n} + n.below, msg)
  {
    ghost var views, below, failed := Views(nodes), n.below, n.View().(status := Failed, error := msg);
    assert views[n] == n.View() && n !in below;
    MarkFailed(nodes, n, msg);
    ghost var marked := Views(nodes);
    assert marked == views[n := failed] && n.below == below;
    FailChildren(nodes, n, msg);
    ghost var walked := Views(nodes);
    assert walked == FailAll(marked, below, msg);
    assert n.View() == walked[n] == failed;
    SignalEnd(nodes, n, Some(msg));
    FailTopViews(views, n, below, msg, walked, Views(nodes));
  }

  /** failTop. A task that has already ended takes nothing down with it. */
  method FailTop(ghost nodes: set<TaskNode>, n: TaskNode, msg: string)
    requires Tree(nodes) && n in nodes
    modifies nodes`status, nodes`error, nodes`ended, nodes`endErr, nodes`signals
    ensures Views(nodes) == FailAll(old(Views(nodes)), if Terminal(old(n.status)) then {} else {n} + n.below, msg)
    ensures old(AllTold(Views(nodes))) ==> AllTold(Views(nodes))
    ensures old(AllTold(Views(nodes))) && !Terminal(old(n.status)) ==>
              Cascaded(old(Views(nodes)), Views(nodes), {n} + n.below, msg)
    ensures Terminal(old(n.status)) ==> Views(nodes) == old(Views(nodes))
  {
    ghost var views := Views(nodes);
    if AllTold(views) { FailAllCascades(views, {n} + n.below, msg); }
    if !n.status.Running? && !n.status.Created? {
      assert FailAll(views, {}, msg) == views;
      return;
    }
    FailLiveTop(nodes, n, msg);
  }

  /** Less is below a child than below its parent. */
  ghost predicate Layered(kids: map<TaskNode, seq<TaskNode>>, belows: map<TaskNode, set<TaskNode>>) {
    forall n, c :: n in kids && c in kids[n] ==> n in belows && c in kids && c in belows && belows[c] < belows[n]
  }

  /** What is below each node is its children and what is below them. */
  ghost predicate Summed(kids: map<TaskNode, seq<TaskNode>>, belows: map<TaskNode, set<TaskNode>>) {
    forall m :: m in kids && m in belows ==> belows[m] == Subtrees(belows, kids[m])
  }

  lemma TreeIsLayered(nodes: set<TaskNode>)
    requires Tree(nodes)
    ensures Layered(Kids(nodes), Belows(nodes)) && Summed(Kids(nodes), Belows(nodes))
  {
    forall n, c | n in nodes && c in n.children ensures c in nodes && c.below < n.below {
      ChildIsSmaller(nodes, n, c);
    }
  }

  /** The IDs below n up to its k-th child, depth first: each child, all that is below it, then the next. */
  ghost function PreOrder(kids: map<TaskNode, seq<TaskNode>>, belows: map<TaskNode, set<TaskNode>>, n: TaskNode, k: nat)
    : seq<string>
    requires Layered(kids, belows) && n in kids && n in belows && k <= |kids[n]|
    decreases belows[n], k
  {
    if k == 0 then []
    else
      var child := kids[n][k - 1];
      PreOrder(kids, belows, n, k - 1) + [child.id] + PreOrder(kids, belows, child, |kids[child]|)
  }

  ghost predicate Named(nodes: set<TaskNode>, id: string) { exists m :: m in nodes && m.id == id }

  lemma NamedWith(nodes: set<TaskNode>, n: TaskNode, below: set<TaskNode>, id: string)
    ensures Named(nodes + ({n} + below), id) <==> Named(nodes, id) || n.id == id || Named(below, id)
  {
    assert n in nodes + ({n} + below);
  }

  lemma NamedUpTo(children: seq<TaskNode>, belows: map<TaskNode, set<TaskNode>>, k: nat, id: string)
    requires 0 < k <= |children| && children[k - 1] in belows
    ensures Named(Subtrees(belows, children[..k]), id) <==>
            || Named(Subtrees(belows, children[..k - 1]), id)
            || children[k - 1].id == id || Named(belows[children[k - 1]], id)
  {
    NextPrefix(children, k - 1);
    SubtreesGrow(belows, children[..k - 1], children[k - 1]);
    NamedWith(Subtrees(belows, children[..k - 1]), children[k - 1], belows[children[k - 1]], id);
  }

  /** It lists exactly what is below. */
  lemma {:induction false} PreOrderLists(kids: map<TaskNode, seq<TaskNode>>, belows: map<TaskNode, set<TaskNode>>,
                                         n: TaskNode, k: nat, id: string)
    requires Layered(kids, belows) && Summed(kids, belows) && n in kids && n in belows && k <= |kids[n]|
    ensures id in PreOrder(kids, belows, n, k) <==> Named(Subtrees(belows, kids[n][..k]), id)
    decreases belows[n], k
  {
    if k > 0 {
      var child := kids[n][k - 1];
      assert child in kids && child in belows && belows[child] < belows[n] by { assert child in kids[n]; }
      PreOrderLists(kids, belows, n, k - 1, id);
      PreOrderLists(kids, belows, child, |kids[child]|, id);
      WholePrefix(kids[child]);
      NamedUpTo(kids[n], belows, k, id);
      InOneOfThree(PreOrder(kids, belows, n, k - 1), child.id, PreOrder(kids, belows, child, |kids[child]|), id);
    }
  }

  lemma InOneOfThree(a: seq<string>, x: string, b: seq<string>, id: string)
    ensures id in a + [x] + b <==> id in a || id == x || id in b
  {
  }

  /** One round of collectIDs' loop. */
  method CollectChild(ghost kids: map<TaskNode, seq<TaskNode>>, ghost belows: map<TaskNode, set<TaskNode>>,
                      n: TaskNode, k: nat, ghost acc: seq<string>, ids: seq<string>)
    returns (ids': seq<string>)
    requires Layered(kids, belows) && n in kids && n in belows && kids == Kids(kids.Keys)
    requires k < |n.children| && ids == acc + PreOrder(kids, belows, n, k)
    ensures ids' == acc + PreOrder(kids, belows, n, k + 1)
    decreases belows[n], 0
  {
    var child := n.children[k];
    ids' := CollectIDs(kids, belows, child, ids + [child.id]);
    assert ids' == acc + (PreOrder(kids, belows, n, k) + [child.id] + PreOrder(kids, belows, child, |kids[child]|));
  }

  /** collectIDs: appends the IDs of all that is below n, depth first. */
  method CollectIDs(ghost kids: map<TaskNode, seq<TaskNode>>, ghost belows: map<TaskNode, set<TaskNode>>,
                    n: TaskNode, acc: seq<string>)
    returns (ids: seq<string>)
    requires Layered(kids, belows) && n in kids && n in belows && kids == Kids(kids.Keys)
    ensures ids == acc + PreOrder(kids, belows, n, |n.children|)
    decreases belows[n], 1
  {
    ids := acc;
    for i := 0 to |n.children|
      invariant kids == Kids(kids.Keys) && ids == acc + PreOrder(kids, belows, n, i)
    {
      ids := CollectChild(kids, belows, n, i, acc, ids);
    }
  }

  /** The IDs a task takes with it: its own, and those collected on a tree. */
  method SubtreeIDs(ghost nodes: set<TaskNode>, n: TaskNode) returns (ids: seq<string>)
    requires Tree(nodes) && n in nodes
    ensures forall id :: id in ids <==> Named({n} + n.below, id)
  {
    ghost var kids, belows := Kids(nodes), Belows(nodes);
    TreeIsLayered(nodes);
    assert kids.Keys == nodes;
    ids := CollectIDs(kids, belows, n, [n.id]);
    forall id ensures id in ids <==> Named({n} + n.below, id) { ListedBelow(kids, belows, n, id); }
  }

  lemma ListedBelow(kids: map<TaskNode, seq<TaskNode>>, belows: map<TaskNode, set<TaskNode>>, n: TaskNode, id: string)
    requires Layered(kids, belows) && Summed(kids, belows) && n in kids && n in belows
    ensures id in [n.id] + PreOrder(kids, belows, n, |kids[n]|) <==> Named({n} + belows[n], id)
  {
    PreOrderLists(kids, belows, n, |kids[n]|, id);
    WholePrefix(kids[n]);
    NamedWith({}, n, belows[n], id);
    assert {} + ({n} + belows[n]) == {n} + belows[n];
  }

  // ---------------------------------------------------------------------------
  // What the cascade means
  // ---------------------------------------------------------------------------

  /** failTop leaves everything below the task ended exactly if the task was live, or all of it had ended before. */
  lemma CascadeIsComplete(views: map<TaskNode, NodeState>, n: TaskNode, below: set<TaskNode>, msg: string)
    requires n in views && below <= views.Keys
    ensures var after := FailAll(views, if Terminal(views[n].status) then {} else {n} + below, msg);
      (forall m :: m in below ==> Terminal(after[m].status))
      <==> !Terminal(views[n].status) || forall m :: m in below ==> Terminal(views[m].status)
  {
    var after := FailAll(views, if Terminal(views[n].status) then {} else {n} + below, msg);
    assert Terminal(views[n].status) ==> forall m :: m in below ==> after[m] == views[m];
  }

  /** What may happen to one node, from anywhere in the tree. */
  datatype Op = ToStatus(s: Status) | Fail(msg: string) | Complete

  function After(s: NodeState, op: Op): NodeState {
    match op
    case ToStatus(next) =>
      if next.Completed? then Completing(s)
      else if Terminal(s.status) || next.Failed? then s
      else s.(status := next)
    case Fail(msg) => Failing(s, msg)
    case Complete => Completing(s)
  }

  function AfterAll(s: NodeState, ops: seq<Op>): NodeState {
    if ops == [] then s else After(AfterAll(s, ops[..|ops| - 1]), ops[|ops| - 1])
  }

  /** Whatever happens in whatever order, a task that has ended stays as it ended, having told its middleware once. */
  lemma {:induction false} OutcomeIsAbsorbing(s: NodeState, before: seq<Op>, after: seq<Op>)
    requires Told(s)
    ensures Told(AfterAll(s, before + after))
    ensures Terminal(AfterAll(s, before).status) ==> AfterAll(s, before + after) == AfterAll(s, before)
    decreases |before| + |after|
  {
    if after != [] {
      OutcomeIsAbsorbing(s, before, after[..|after| - 1]);
      assert (before + after)[..|before + after| - 1] == before + after[..|after| - 1];
    } else if before != [] {
      OutcomeIsAbsorbing(s, before[..|before| - 1], []);
      assert before + [] == before && before[..|before| - 1] + [] == before[..|before| - 1];
    } else {
      assert before + after == [];
    }
  }

  /** A task with one child. */
  method Pair() returns (parent: TaskNode, child: TaskNode, ghost nodes: set<TaskNode>)
    ensures fresh(nodes) && parent in nodes && child in nodes && Tree(nodes) && child in parent.below
    ensures parent.status.Created? && child.status.Created?
  {
    parent := new TaskNode("parent");
    assert Subtrees(Belows({parent}), []) == {};
    assert Tree({parent});
    child := new TaskNode("child");
    nodes := {parent} + {child};
    AddChild({parent}, parent, child);
  }

  /** The parent has completed, and its child is live. */
  method EndedParent() returns (parent: TaskNode, child: TaskNode, ghost nodes: set<TaskNode>)
    ensures fresh(nodes) && parent in nodes && child in nodes && Tree(nodes) && child in parent.below
    ensures parent.status.Completed? && child.status.Created?
  {
    parent, child, nodes := Pair();
    ghost var view := child.View();
    assert child != parent;
    parent.CompleteTop();
    assert child.View() == view;
  }

  /** A task that has ended shields what is below it: its live child outlives the cascade. */
  method EndedTaskTakesNothingDown() returns (child: TaskNode)
    ensures child.status.Created?
  {
    var parent;
    ghost var nodes;
    parent, child, nodes := EndedParent();
    ghost var views := Views(nodes);
    assert views[child].status.Created?;
    FailTop(nodes, parent, "canceled");
    assert Views(nodes)[child] == views[child];
  }
}
