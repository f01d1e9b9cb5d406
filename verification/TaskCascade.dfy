/**
 * The cascade of failTop while the tree is in use (tasks/task_tree.go).
 *
 * A cascade takes one node's lock at a time. Between its sections other
 * cascades run, tasks end on their own, and children are added. One step is
 * one locked section; a walk is the list of sections a cascade has left.
 */
module TaskCascade {
  type Walker = nat

  /** Tasks are numbered in order of creation. */
  type Node = nat

  datatype Status = Live | Completed | Failed(msg: string)

  /** failChildren's section for one child, and the section that copies a node's children before. */
  datatype Section = FailOne(n: Node) | CopyChildren(n: Node)

  /** copied is history: the children of each node as this cascade copied them. */
  datatype Walk = Walk(top: Node, msg: string, todo: seq<Section>, copied: map<Node, seq<Node>>)

  datatype State = State(children: seq<seq<Node>>, status: seq<Status>, walks: map<Walker, Walk>)

  const INIT := State([], [], map[])

  datatype Step =
    | NewTask
    | AddChild(parent: Node)
    | Terminate(n: Node, to: Status)              // setStatus, setFailed, completeTop
    | FailTop(w: Walker, n: Node, msg: string)    // the section of failTop
    | Continue(w: Walker)

  predicate Enabled(st: State, step: Step) {
    match step
    case NewTask => true
    case AddChild(parent) => parent < |st.children|
    case Terminate(n, to) => n < |st.status| && !to.Live?
    case FailTop(w, n, msg) => n < |st.status| && w !in st.walks
    case Continue(w) => w in st.walks && st.walks[w].todo != []
  }

  function End(status: seq<Status>, n: Node, to: Status): seq<Status> {
    if n < |status| && status[n].Live? then status[n := to] else status
  }

  function Each(ns: seq<Node>): seq<Section> { seq(|ns|, i requires 0 <= i < |ns| => FailOne(ns[i])) }

  /** The next section of a cascade. */
  function Advance(st: State, w: Walker): State
    requires Enabled(st, Continue(w))
  {
    var walk := st.walks[w];
    var rest := walk.todo[1..];
    match walk.todo[0]
    case FailOne(n) =>
      st.(status := End(st.status, n, Failed(walk.msg)),
          walks := st.walks[w := walk.(todo := [CopyChildren(n)] + rest)])
    case CopyChildren(n) =>
      var children := if n < |st.children| then st.children[n] else [];
      st.(walks := st.walks[w := walk.(todo := Each(children) + rest, copied := walk.copied[n := children])])
  }

  function Apply(st: State, step: Step): State
    requires Enabled(st, step)
  {
    match step
    case NewTask => st.(children := st.children + [[]], status := st.status + [Live])
    case AddChild(parent) =>
      st.(children := st.children[parent := st.children[parent] + [|st.children|]] + [[]], status := st.status + [Live])
    case Terminate(n, to) => st.(status := End(st.status, n, to))
    case FailTop(w, n, msg) =>
      if !st.status[n].Live? then st
      else st.(status := st.status[n := Failed(msg)], walks := st.walks[w := Walk(n, msg, [CopyChildren(n)], map[])])
    case Continue(w) => Advance(st, w)
  }

  // ---------------------------------------------------------------------------
  // Invariant
  // ---------------------------------------------------------------------------

  predicate Ended(status: seq<Status>, n: Node) { n < |status| && !status[n].Live? }

  /** A child is younger than its parent, and has one parent. */
  ghost predicate Forest(children: seq<seq<Node>>) {
    && (forall p, c :: 0 <= p < |children| && c in children[p] ==> p < c < |children|)
    && (forall p, q, c :: 0 <= p < |children| && 0 <= q < |children| && c in children[p] && c in children[q] ==> p == q)
  }

  /** The cascade has failed n, and has copied its children or will. */
  ghost predicate Taken(walk: Walk, status: seq<Status>, n: Node) {
    Ended(status, n) && (CopyChildren(n) in walk.todo || n in walk.copied)
  }

  /** A cascade owes nothing: what it copied is taken or still to do. */
  ghost predicate Owes(walk: Walk, status: seq<Status>) {
    && Taken(walk, status, walk.top)
    && (forall n, c :: n in walk.copied && c in walk.copied[n] ==> FailOne(c) in walk.todo || Taken(walk, status, c))
  }

  /** A cascade came to n as to a child it had copied. */
  ghost predicate CameTo(walk: Walk, n: Node) {
    n == walk.top || exists p :: p in walk.copied && n in walk.copied[p]
  }

  ghost predicate Within(walk: Walk, children: seq<seq<Node>>) {
    && walk.top < |children|
    && (forall n :: n in walk.copied ==> n < |children| && walk.copied[n] <= children[n] && CameTo(walk, n))
    && (forall s :: s in walk.todo ==> s.n < |children| && CameTo(walk, s.n))
  }

  ghost predicate Inv(st: State) {
    && |st.status| == |st.children| && Forest(st.children)
    && (forall w :: w in st.walks ==> Owes(st.walks[w], st.status) && Within(st.walks[w], st.children))
  }

  /** What keeps every cascade's invariants: no task comes back to life, and no child is taken away. */
  ghost predicate Grows(st: State, st': State) {
    && |st.status| <= |st'.status| && |st.children| <= |st'.children|
    && (forall n :: Ended(st.status, n) ==> Ended(st'.status, n))
    && (forall n :: 0 <= n < |st.children| ==> st.children[n] <= st'.children[n])
  }

  lemma WalkStays(st: State, st': State, walk: Walk)
    requires Grows(st, st') && Owes(walk, st.status) && Within(walk, st.children)
    ensures Owes(walk, st'.status) && Within(walk, st'.children)
  {
    OwesStays(walk, st.status, st'.status);
    WithinStays(walk, st.children, st'.children);
  }

  lemma OwesStays(walk: Walk, status: seq<Status>, status': seq<Status>)
    requires Owes(walk, status) && forall n :: Ended(status, n) ==> Ended(status', n)
    ensures Owes(walk, status')
  {
    assert forall n :: Taken(walk, status, n) ==> Taken(walk, status', n);
  }

  lemma WithinStays(walk: Walk, children: seq<seq<Node>>, children': seq<seq<Node>>)
    requires Within(walk, children) && |children| <= |children'|
    requires forall n :: 0 <= n < |children| ==> children[n] <= children'[n]
    ensures Within(walk, children')
  {
  }

  lemma StepGrows(st: State, step: Step)
    requires |st.status| == |st.children| && Enabled(st, step)
    ensures Grows(st, Apply(st, step)) && |Apply(st, step).status| == |Apply(st, step).children|
  {
  }

  lemma ForestKept(st: State, step: Step)
    requires Forest(st.children) && Enabled(st, step)
    ensures Forest(Apply(st, step).children)
  {
    if step.AddChild? {
      var children, n := st.children, |st.children|;
      var children' := Apply(st, step).children;
      assert forall p, c :: 0 <= p < |children'| && c in children'[p] ==>
        (p < n && c in children[p]) || (p == step.parent && c == n);
    } else if step.NewTask? {
      var children' := Apply(st, step).children;
      assert forall p :: 0 <= p < |children'| ==> children'[p] == if p < |st.children| then st.children[p] else [];
    }
  }

  lemma FailOneOwes(walk: Walk, walk': Walk, status: seq<Status>, status': seq<Status>, n: Node)
    requires Owes(walk, status) && walk'.top == walk.top && walk'.copied == walk.copied
    requires forall s :: s in walk.todo ==> s == FailOne(n) || s in walk'.todo
    requires CopyChildren(n) in walk'.todo && Ended(status', n)
    requires forall m :: Ended(status, m) ==> Ended(status', m)
    ensures Owes(walk', status')
  {
    forall m, c | m in walk'.copied && c in walk'.copied[m]
      ensures FailOne(c) in walk'.todo || Taken(walk', status', c)
    {
      assert FailOne(c) in walk.todo || Taken(walk, status, c);
    }
  }

  lemma FailOneWithin(walk: Walk, walk': Walk, tree: seq<seq<Node>>, n: Node)
    requires Within(walk, tree) && walk'.top == walk.top && walk'.copied == walk.copied && FailOne(n) in walk.todo
    requires forall s :: s in walk'.todo ==> s in walk.todo || s == CopyChildren(n)
    ensures Within(walk', tree)
  {
    assert FailOne(n).n == n && CameTo(walk, n);
    assert forall m :: CameTo(walk, m) ==> CameTo(walk', m);
  }

  lemma CopyOwes(walk: Walk, walk': Walk, status: seq<Status>, n: Node, children: seq<Node>)
    requires Owes(walk, status) && walk'.top == walk.top && walk'.copied == walk.copied[n := children]
    requires forall s :: s in walk.todo ==> s == CopyChildren(n) || s in walk'.todo
    requires forall c :: c in children ==> FailOne(c) in walk'.todo
    ensures Owes(walk', status)
  {
    forall m, c | m in walk'.copied && c in walk'.copied[m]
      ensures FailOne(c) in walk'.todo || Taken(walk', status, c)
    {
      if m != n { assert FailOne(c) in walk.todo || Taken(walk, status, c); }
    }
  }

  /** What came to stays come to when more is copied. */
  lemma CopyWithin(walk: Walk, walk': Walk, tree: seq<seq<Node>>, n: Node, children: seq<Node>)
    requires Within(walk, tree) && Forest(tree) && walk'.top == walk.top && walk'.copied == walk.copied[n := children]
    requires CopyChildren(n) in walk.todo && n < |tree| && children == tree[n]
    requires forall s :: s in walk'.todo ==> s in walk.todo || (s.FailOne? && s.n in children)
    ensures Within(walk', tree)
  {
    assert CameTo(walk, n) by { assert CopyChildren(n).n == n; }
    forall m | CameTo(walk, m) ensures CameTo(walk', m) {
      if m != walk.top {
        var p :| p in walk.copied && m in walk.copied[p];
        assert p in walk'.copied && m in walk'.copied[p];
      }
    }
    assert n in walk'.copied;
  }

  lemma HeadAndRest(todo: seq<Section>)
    requires todo != []
    ensures forall s :: s in todo <==> s == todo[0] || s in todo[1..]
  {
    assert todo == [todo[0]] + todo[1..];
  }

  lemma EachHolds(ns: seq<Node>, s: Section)
    ensures s in Each(ns) <==> s.FailOne? && s.n in ns
  {
    if s.FailOne? && s.n in ns {
      var k :| 0 <= k < |ns| && ns[k] == s.n;
      assert Each(ns)[k] == s;
    }
  }

  lemma FailOneIs(st: State, w: Walker)
    requires Enabled(st, Continue(w)) && st.walks[w].todo[0].FailOne?
    ensures var st', walk, n := Advance(st, w), st.walks[w], st.walks[w].todo[0].n;
      var walk' := st'.walks[w];
      && walk'.top == walk.top && walk'.copied == walk.copied && st'.children == st.children
      && CopyChildren(n) in walk'.todo && FailOne(n) in walk.todo
      && (forall s :: s in walk.todo ==> s == FailOne(n) || s in walk'.todo)
      && (forall s :: s in walk'.todo ==> s in walk.todo || s == CopyChildren(n))
  {
    HeadAndRest(st.walks[w].todo);
    HeadAndRest(Advance(st, w).walks[w].todo);
  }

  lemma FailOneKeeps(st: State, w: Walker)
    requires Inv(st) && Enabled(st, Continue(w)) && st.walks[w].todo[0].FailOne?
    ensures var st' := Advance(st, w); Owes(st'.walks[w], st'.status) && Within(st'.walks[w], st'.children)
  {
    var walk, st' := st.walks[w], Advance(st, w);
    FailOneIs(st, w);
    FailOneOwes(walk, st'.walks[w], st.status, st'.status, walk.todo[0].n);
    FailOneWithin(walk, st'.walks[w], st.children, walk.todo[0].n);
  }

  lemma CopyKeeps(st: State, w: Walker)
    requires Inv(st) && Enabled(st, Continue(w)) && st.walks[w].todo[0].CopyChildren?
    ensures var st' := Advance(st, w); Owes(st'.walks[w], st'.status) && Within(st'.walks[w], st'.children)
  {
    var walk := st.walks[w];
    var st' := Advance(st, w);
    var walk', n := st'.walks[w], walk.todo[0].n;
    HeadAndRest(walk.todo);
    assert walk.todo[0] in walk.todo;
    forall s ensures s in walk'.todo <==> (s.FailOne? && s.n in st.children[n]) || s in walk.todo[1..] {
      EachHolds(st.children[n], s);
    }
    forall c | c in st.children[n] ensures FailOne(c) in walk'.todo { assert FailOne(c).n == c; }
    CopyOwes(walk, walk', st.status, n, st.children[n]);
    CopyWithin(walk, walk', st.children, n, st.children[n]);
  }

  lemma OtherWalkStays(st: State, step: Step, w: Walker)
    requires Inv(st) && Enabled(st, step) && w in st.walks && !(step.Continue? && step.w == w)
    ensures var st' := Apply(st, step);
      w in st'.walks && Owes(st'.walks[w], st'.status) && Within(st'.walks[w], st'.children)
  {
    assert Apply(st, step).walks[w] == st.walks[w];
    StepGrows(st, step);
    WalkStays(st, Apply(st, step), st.walks[w]);
  }

  lemma NewWalkHolds(st: State, step: Step, w: Walker)
    requires Inv(st) && Enabled(st, step) && w !in st.walks && w in Apply(st, step).walks
    ensures var st' := Apply(st, step); Owes(st'.walks[w], st'.status) && Within(st'.walks[w], st'.children)
  {
    assert step.FailTop? && Apply(st, step).walks[w].todo == [CopyChildren(step.n)];
    assert CopyChildren(step.n) in [CopyChildren(step.n)];
  }

  lemma StepKeeps(st: State, step: Step)
    requires Inv(st) && Enabled(st, step)
    ensures Inv(Apply(st, step))
  {
    var st' := Apply(st, step);
    StepGrows(st, step);
    ForestKept(st, step);
    forall w | w in st'.walks ensures Owes(st'.walks[w], st'.status) && Within(st'.walks[w], st'.children) {
      if w in st.walks && !(step.Continue? && step.w == w) {
        OtherWalkStays(st, step, w);
      } else if step.Continue? {
        if st.walks[w].todo[0].FailOne? { FailOneKeeps(st, w); } else { CopyKeeps(st, w); }
      } else {
        NewWalkHolds(st, step, w);
      }
    }
  }

  // ---------------------------------------------------------------------------
  // Over every run
  // ---------------------------------------------------------------------------

  ghost predicate Moves(run: seq<State>, i: nat)
    requires i + 1 < |run|
  {
    exists step :: Enabled(run[i], step) && run[i + 1] == Apply(run[i], step)
  }

  ghost predicate IsRun(run: seq<State>) {
    && run != [] && run[0] == INIT
    && (forall i :: 0 <= i < |run| - 1 ==> Moves(run, i))
  }

  lemma {:induction false} RunKeeps(run: seq<State>, i: nat)
    requires IsRun(run) && i < |run|
    ensures Inv(run[i])
  {
    if i > 0 {
      RunKeeps(run, i - 1);
      assert Moves(run, i - 1);
      var step :| Enabled(run[i - 1], step) && run[i] == Apply(run[i - 1], step);
      StepKeeps(run[i - 1], step);
    }
  }

  /** A way down the tree. */
  ghost predicate Path(children: seq<seq<Node>>, path: seq<Node>) {
    && path != [] && path[0] < |children|
    && (forall k :: 0 <= k < |path| - 1 ==> path[k] < |children| && path[k + 1] in children[path[k]])
  }

  /** Each task on the way was there when the cascade copied its parent's children. */
  ghost predicate InTime(walk: Walk, path: seq<Node>) {
    forall k :: 0 <= k < |path| - 1 ==> path[k] in walk.copied && path[k + 1] in walk.copied[path[k]]
  }

  lemma {:induction false} PathGoesDown(children: seq<seq<Node>>, path: seq<Node>)
    requires Forest(children) && Path(children, path) && |path| > 1
    ensures path[0] < path[|path| - 1]
  {
    var k := |path| - 2;
    assert path[k + 1] in children[path[k]];
    if k > 0 { PathGoesDown(children, path[..k + 1]); }
  }

  /** A cascade comes to a task only from its parent. */
  lemma CameFromParent(walk: Walk, children: seq<seq<Node>>, p: Node, n: Node)
    requires Forest(children) && Within(walk, children) && CameTo(walk, n) && n != walk.top
    requires p < |children| && n in children[p]
    ensures p in walk.copied && n in walk.copied[p]
  {
    var q :| q in walk.copied && n in walk.copied[q];
    assert n in children[q];
  }

  lemma FrontPath(children: seq<seq<Node>>, path: seq<Node>)
    requires Path(children, path) && |path| > 1
    ensures Path(children, path[..|path| - 1])
    ensures path[|path| - 2] < |children| && path[|path| - 1] in children[path[|path| - 2]]
  {
    var k := |path| - 2;
    assert path[k + 1] in children[path[k]];
  }

  lemma FrontInTime(walk: Walk, path: seq<Node>)
    requires |path| > 1
    ensures InTime(walk, path) <==>
            && InTime(walk, path[..|path| - 1])
            && path[|path| - 2] in walk.copied && path[|path| - 1] in walk.copied[path[|path| - 2]]
  {
    var k := |path| - 2;
    if InTime(walk, path) { assert path[k] in walk.copied && path[k + 1] in walk.copied[path[k]]; }
  }

  /** Whoever a cascade comes to, it came down the one path there is, in time. */
  lemma {:induction false} CameInTime(walk: Walk, children: seq<seq<Node>>, path: seq<Node>)
    requires Forest(children) && Within(walk, children) && Path(children, path) && path[0] == walk.top
    requires CameTo(walk, path[|path| - 1])
    ensures InTime(walk, path)
  {
    if |path| > 1 {
      var k := |path| - 2;
      FrontPath(children, path);
      PathGoesDown(children, path);
      CameFromParent(walk, children, path[k], path[k + 1]);
      CameInTime(walk, children, path[..k + 1]);
      FrontInTime(walk, path);
    }
  }

  lemma InTimeIsTaken(walk: Walk, status: seq<Status>, path: seq<Node>)
    requires Owes(walk, status) && walk.todo == [] && path != [] && path[0] == walk.top && InTime(walk, path)
    ensures Ended(status, path[|path| - 1]) && CameTo(walk, path[|path| - 1])
  {
    if |path| > 1 {
      var p, n := path[|path| - 2], path[|path| - 1];
      FrontInTime(walk, path);
      assert FailOne(n) in walk.todo || Taken(walk, status, n);
    }
  }

  /**
   * Whatever else goes on, a cascade that is through has come to exactly the tasks below the top that were there in
   * time: on the way to each, every task was a child of the one before when that one's children were copied. All of
   * them have ended.
   */
  lemma CascadeReachesAllInTime(run: seq<State>, i: nat, w: Walker, path: seq<Node>)
    requires IsRun(run) && i < |run| && w in run[i].walks && run[i].walks[w].todo == []
    requires Path(run[i].children, path) && path[0] == run[i].walks[w].top
    ensures InTime(run[i].walks[w], path) <==> CameTo(run[i].walks[w], path[|path| - 1])
    ensures InTime(run[i].walks[w], path) ==> Ended(run[i].status, path[|path| - 1])
  {
    RunKeeps(run, i);
    var walk := run[i].walks[w];
    if CameTo(walk, path[|path| - 1]) { CameInTime(walk, run[i].children, path); }
    if InTime(walk, path) { InTimeIsTaken(walk, run[i].status, path); }
  }

  /** No child came to a task after the cascade had copied its children. */
  ghost predicate Undisturbed(walk: Walk, children: seq<seq<Node>>) {
    forall n :: n in walk.copied ==> n < |children| && walk.copied[n] == children[n]
  }

  lemma {:induction false} AllInTime(walk: Walk, status: seq<Status>, children: seq<seq<Node>>, path: seq<Node>)
    requires Owes(walk, status) && walk.todo == [] && Undisturbed(walk, children)
    requires Path(children, path) && path[0] == walk.top
    ensures InTime(walk, path)
  {
    if |path| > 1 {
      FrontPath(children, path);
      var front := path[..|path| - 1];
      AllInTime(walk, status, children, front);
      assert front[|front| - 1] in walk.copied by {
        if |front| > 1 {
          FrontInTime(walk, front);
          assert FailOne(front[|front| - 1]) in walk.todo || Taken(walk, status, front[|front| - 1]);
        }
      }
      FrontInTime(walk, path);
    }
  }

  /** So an undisturbed cascade leaves nothing below its top alive. */
  lemma UndisturbedCascadeIsComplete(run: seq<State>, i: nat, w: Walker, path: seq<Node>)
    requires IsRun(run) && i < |run| && w in run[i].walks && run[i].walks[w].todo == []
    requires Undisturbed(run[i].walks[w], run[i].children)
    requires Path(run[i].children, path) && path[0] == run[i].walks[w].top
    ensures Ended(run[i].status, path[|path| - 1])
  {
    RunKeeps(run, i);
    AllInTime(run[i].walks[w], run[i].status, run[i].children, path);
    InTimeIsTaken(run[i].walks[w], run[i].status, path);
  }

  /** A section of a cascade ends at most one task, a live one it came to, with its own message. */
  lemma CascadeTouchesOnlyItsOwn(run: seq<State>, i: nat, w: Walker, n: Node)
    requires IsRun(run) && i < |run| && Enabled(run[i], Continue(w)) && n < |run[i].status|
    ensures var st' := Advance(run[i], w);
      |st'.status| == |run[i].status| &&
      (st'.status[n] != run[i].status[n] ==>
        && run[i].status[n].Live? && CameTo(run[i].walks[w], n)
        && run[i].walks[w].todo[0] == FailOne(n) && st'.status[n] == Failed(run[i].walks[w].msg))
  {
    RunKeeps(run, i);
    assert run[i].walks[w].todo[0] in run[i].walks[w].todo;
  }

  /** An outcome stays, whatever cascades pass. */
  lemma {:induction false} OutcomeStays(run: seq<State>, i: nat, j: nat, n: Node)
    requires IsRun(run) && i <= j < |run| && Ended(run[i].status, n)
    ensures Ended(run[j].status, n) && run[j].status[n] == run[i].status[n]
    decreases j
  {
    if i < j {
      OutcomeStays(run, i, j - 1, n);
      assert Moves(run, j - 1);
    }
  }

  /** A child that comes when its parent's children are copied already outlives the cascade that ended its parent. */
  lemma LateChildSurvives() returns (run: seq<State>)
    ensures IsRun(run)
    ensures var st := run[|run| - 1];
      0 in st.walks && st.walks[0].todo == [] && st.status == [Failed("canceled"), Live] && st.children == [[1], []]
  {
    var st0 := State([[]], [Live], map[]);
    var st1 := State([[]], [Failed("canceled")], map[0 := Walk(0, "canceled", [CopyChildren(0)], map[])]);
    var st2 := st1.(walks := map[0 := Walk(0, "canceled", [], map[0 := []])]);
    var st3 := st2.(children := [[1], []], status := [Failed("canceled"), Live]);
    run := [INIT];
    run := RunOn(run, NewTask, st0);
    run := RunOn(run, FailTop(0, 0, "canceled"), st1);
    assert Each([]) + st1.walks[0].todo[1..] == [];
    run := RunOn(run, Continue(0), st2);
    var none: seq<Node> := [];
    assert none + [1] == [1] && [none][0 := [1]] + [none] == [[1], none];
    run := RunOn(run, AddChild(0), st3);
  }

  lemma RunOn(run: seq<State>, step: Step, st: State) returns (run': seq<State>)
    requires IsRun(run) && Enabled(run[|run| - 1], step) && st == Apply(run[|run| - 1], step)
    ensures IsRun(run') && run'[|run'| - 1] == st
  {
    run' := run + [st];
    forall i | 0 <= i < |run'| - 1 ensures Moves(run', i) {
      if i < |run| - 1 {
        assert Moves(run, i);
        var step :| Enabled(run[i], step) && run[i + 1] == Apply(run[i], step);
      }
      assert run'[i] == run[i];
    }
  }
}
