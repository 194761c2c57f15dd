/** The chain controller (`AsyncTask`, and `AsyncMutiTask` / `AsyncTasks`
    for a node whose executor is a group).

    A chain is a family of nodes linked forwards by `nextTask` and backwards
    by the `errorDidAdded` relay each node gets from the node that created
    it.  A ghost `Registry` lists the nodes of one family in creation order;
    it gives every node an index, so that each node method is specified by a
    pure function of the whole family's value (`Views()`) before the call,
    and so that the recursion down the chain (a failure cancels the
    successor, whose cancel ends it, ...) and up the relay terminates.

    A node keeps the value of its executor (`ExecView`); the executor's
    operations are the value functions of module `Executors`, which the
    `Unit` and `Aggregate` classes are proved to implement in place. */
module Chain {
  import opened Outcomes
  import opened Executors

  /** The value of a node's executor (`task`): none yet, a unit, or a group. */
  datatype ExecView<D> = NoTask | UnitState(unit: UnitView<D>) | GroupState(group: GroupView<D>)

  /** The value of a node: its executor, the index of its successor
      (`nextTask`) and the index of the node its relay reaches. */
  datatype NodeView<D> = NodeView(exec: ExecView<D>, next: Option<nat>, creator: Option<nat>)

  // ===========================================================================
  // The executor a node holds

  /** `task?.start()` */
  function ExecStarted<D>(e: ExecView<D>): ExecView<D> {
    match e
    case NoTask => NoTask
    case UnitState(u) => UnitState(Started(u))
    case GroupState(g) => GroupState(GroupStarted(g))
  }

  /** What `task?.start()` submits. */
  function ExecStartLog<D>(e: ExecView<D>): seq<Event<D>> {
    match e
    case NoTask => []
    case UnitState(u) => StartLog(u)
    case GroupState(g) => StartLogs(g.members, |g.members|)
  }

  /** `task?.cancel()` */
  function ExecCancelled<D>(e: ExecView<D>): ExecView<D> {
    match e
    case NoTask => NoTask
    case UnitState(u) => UnitState(Cancelled(u))
    case GroupState(g) => GroupState(GroupCancelled(g))
  }

  /** Whether `task?.cancel()` reaches the node: only a unit's does; a group
      never calls its own `endAction` when cancelled. */
  predicate ExecCancelForwards<D>(e: ExecView<D>) {
    e.UnitState? && CancelForwards(e.unit)
  }

  /** `task?.error`: a node without an executor has no error handler. */
  function ErrorSlot<D>(e: ExecView<D>): Handler {
    match e
    case NoTask => Unset
    case UnitState(u) => u.onError
    case GroupState(g) => g.onError
  }

  /** `task?.error = h` */
  function WithError<D>(e: ExecView<D>, h: nat): ExecView<D> {
    match e
    case NoTask => NoTask
    case UnitState(u) => UnitState(u.(onError := Installed(h)))
    case GroupState(g) => GroupState(g.(onError := Installed(h)))
  }

  /** `task?.complete = h` */
  function WithComplete<D>(e: ExecView<D>, h: nat): ExecView<D> {
    match e
    case NoTask => NoTask
    case UnitState(u) => UnitState(u.(onComplete := Installed(h)))
    case GroupState(g) => GroupState(g.(onComplete := Installed(h)))
  }

  /** The unit `addTask` installs: a new `Task` whose `endAction` is the
      node's forward-once wrapper. */
  function Chained<D>(job: nat): UnitView<D> {
    Created(job).(hook := ChainOnce(true))
  }

  /** The group `AsyncMutiTask()` installs: an empty `MutiTask` whose
      `endAction` is the node's forward-once wrapper. */
  function GroupNode<D>(): GroupView<D> {
    Empty().(hook := ChainOnce(true))
  }

  /** `addTask(job)`: a group node adds a new member; any other node
      replaces its executor by a new unit. */
  function AddedTask<D>(e: ExecView<D>, job: nat): ExecView<D> {
    match e
    case GroupState(g) => GroupState(Added(g, Created(job)))
    case _ => UnitState(Chained(job))
  }

  /** `addTasks(jobs)` on a group: one new member per callable, in order. */
  function AddedAll<D>(g: GroupView<D>, jobs: seq<nat>): GroupView<D>
    decreases |jobs|
  {
    if jobs == [] then g else Added(AddedAll(g, jobs[..|jobs| - 1]), Created(jobs[|jobs| - 1]))
  }

  /** `addTasks(jobs)`: a node whose executor is not a group is left alone. */
  function ExecAddedAll<D>(e: ExecView<D>, jobs: seq<nat>): ExecView<D> {
    match e
    case GroupState(g) => GroupState(AddedAll(g, jobs))
    case _ => e
  }

  // ===========================================================================
  // Specification functions over the family's value

  /** Successors come later in creation order, relays reach earlier nodes. */
  predicate Linked<D>(vs: seq<NodeView<D>>) {
    forall k :: 0 <= k < |vs| ==>
      (vs[k].next.Some? ==> k < vs[k].next.value < |vs|) && (vs[k].creator.Some? ==> vs[k].creator.value < k)
  }

  /** Replacing one node's value by one with the same relay and the same or
      no successor keeps the family linked. */
  lemma LinkedUpdate<D>(vs: seq<NodeView<D>>, k: nat, v: NodeView<D>)
    requires Linked(vs) && k < |vs| && v.creator == vs[k].creator
    requires v.next.None? || v.next == vs[k].next
    ensures Linked(vs[k := v])
  {
  }

  /** Node `k` after `start`. */
  function StartViews<D>(vs: seq<NodeView<D>>, k: nat): (r: seq<NodeView<D>>)
    requires Linked(vs) && k < |vs|
    ensures Linked(r) && |r| == |vs|
  {
    LinkedUpdate(vs, k, vs[k].(exec := ExecStarted(vs[k].exec)));
    vs[k := vs[k].(exec := ExecStarted(vs[k].exec))]
  }

  /** Node `k` with `nextTask = nil`. */
  function DropNext<D>(vs: seq<NodeView<D>>, k: nat): (r: seq<NodeView<D>>)
    requires Linked(vs) && k < |vs|
    ensures Linked(r) && |r| == |vs|
  {
    LinkedUpdate(vs, k, vs[k].(next := None));
    vs[k := vs[k].(next := None)]
  }

  /** The family after node `k`'s `end(s)`: a success state starts the
      successor, a failure state cancels the successor's executor, `idle`
      and `doing` do nothing to it; the successor link is dropped in every
      case. */
  function EndViews<D>(vs: seq<NodeView<D>>, k: nat, s: State<D>): (r: seq<NodeView<D>>)
    requires Linked(vs) && k < |vs|
    ensures Linked(r) && |r| == |vs|
    decreases |vs| - k, 0
  {
    var ws :=
      match vs[k].next
      case None => vs
      case Some(j) =>
        if IsSuccess(s) then StartViews(vs, j)
        else if IsFailure(s) then CancelViews(vs, j)
        else vs;
    DropNext(ws, k)
  }

  /** The family after `task?.cancel()` on node `j`: a unit whose cancel
      reaches the node ends the node with `cancel`, which goes on down the
      chain. */
  function CancelViews<D>(vs: seq<NodeView<D>>, j: nat): (r: seq<NodeView<D>>)
    requires Linked(vs) && j < |vs|
    ensures Linked(r) && |r| == |vs|
    decreases |vs| - j, 1
  {
    LinkedUpdate(vs, j, vs[j].(exec := ExecCancelled(vs[j].exec)));
    var ws := vs[j := vs[j].(exec := ExecCancelled(vs[j].exec))];
    if ExecCancelForwards(vs[j].exec) then EndViews(ws, j, State.Cancel) else ws
  }

  /** What node `k`'s `end(s)` submits: the successor's start on success;
      cancelling submits nothing and invokes no handler. */
  function EndLog<D>(vs: seq<NodeView<D>>, k: nat, s: State<D>): seq<Event<D>>
    requires Linked(vs) && k < |vs|
  {
    if vs[k].next.Some? && IsSuccess(s) then ExecStartLog(vs[vs[k].next.value].exec) else []
  }

  /** The callable of node `k`'s unit reports `s` (it calls the unit's
      `end(s)`); the node's wrapper passes it on to the node's `end` once. */
  function ReportViews<D>(vs: seq<NodeView<D>>, k: nat, s: State<D>): (r: seq<NodeView<D>>)
    requires Linked(vs) && k < |vs| && vs[k].exec.UnitState?
    ensures Linked(r) && |r| == |vs|
  {
    var u := vs[k].exec.unit;
    LinkedUpdate(vs, k, vs[k].(exec := UnitState(Ended(u, s))));
    var ws := vs[k := vs[k].(exec := UnitState(Ended(u, s)))];
    if Fires(u.hook) then EndViews(ws, k, s) else ws
  }

  function ReportLog<D>(vs: seq<NodeView<D>>, k: nat, s: State<D>): seq<Event<D>>
    requires Linked(vs) && k < |vs| && vs[k].exec.UnitState?
  {
    var u := vs[k].exec.unit;
    LinkedUpdate(vs, k, vs[k].(exec := UnitState(Ended(u, s))));
    var ws := vs[k := vs[k].(exec := UnitState(Ended(u, s)))];
    EndCalls(u, s, Unset, Unset) + (if Fires(u.hook) then EndLog(ws, k, s) else [])
  }

  /** The callable of member `i` of node `k`'s group reports `s`; when the
      join it triggers reaches the node, the node ends with the group's new
      state. */
  function MemberReportViews<D>(vs: seq<NodeView<D>>, k: nat, i: nat, s: State<D>): (r: seq<NodeView<D>>)
    requires Linked(vs) && k < |vs| && vs[k].exec.GroupState? && i < |vs[k].exec.group.members|
    ensures Linked(r) && |r| == |vs|
  {
    var g := vs[k].exec.group;
    var g' := MemberEnded(g, i, s);
    LinkedUpdate(vs, k, vs[k].(exec := GroupState(g')));
    var ws := vs[k := vs[k].(exec := GroupState(g'))];
    if MemberEndForwards(g, i, s) then EndViews(ws, k, g'.state) else ws
  }

  function MemberReportLog<D>(vs: seq<NodeView<D>>, k: nat, i: nat, s: State<D>): seq<Event<D>>
    requires Linked(vs) && k < |vs| && vs[k].exec.GroupState? && i < |vs[k].exec.group.members|
  {
    var g := vs[k].exec.group;
    var g' := MemberEnded(g, i, s);
    LinkedUpdate(vs, k, vs[k].(exec := GroupState(g')));
    var ws := vs[k := vs[k].(exec := GroupState(g'))];
    MemberEndCalls(g, i, s) + (if MemberEndForwards(g, i, s) then EndLog(ws, k, g'.state) else [])
  }

  /** `error(h)` on node `k`: install `h`, then relay it. */
  function ErrorViews<D>(vs: seq<NodeView<D>>, k: nat, h: nat): (r: seq<NodeView<D>>)
    requires Linked(vs) && k < |vs|
    ensures Linked(r) && |r| == |vs|
    decreases k, 1
  {
    LinkedUpdate(vs, k, vs[k].(exec := WithError(vs[k].exec, h)));
    RelayViews(vs[k := vs[k].(exec := WithError(vs[k].exec, h))], k, h)
  }

  /** `transmitError(h)` on node `k`: the creator takes `h` through its own
      `error` when it has no error handler, and only relays it otherwise; a
      node without a creator stops the walk. */
  function RelayViews<D>(vs: seq<NodeView<D>>, k: nat, h: nat): (r: seq<NodeView<D>>)
    requires Linked(vs) && k < |vs|
    ensures Linked(r) && |r| == |vs|
    decreases k, 0
  {
    match vs[k].creator
    case None => vs
    case Some(p) => if ErrorSlot(vs[p].exec) == Unset then ErrorViews(vs, p, h) else RelayViews(vs, p, h)
  }

  /** `complete(h)` on node `k`. */
  function CompleteViews<D>(vs: seq<NodeView<D>>, k: nat, h: nat): (r: seq<NodeView<D>>)
    requires Linked(vs) && k < |vs|
    ensures Linked(r) && |r| == |vs|
  {
    LinkedUpdate(vs, k, vs[k].(exec := WithComplete(vs[k].exec, h)));
    vs[k := vs[k].(exec := WithComplete(vs[k].exec, h))]
  }

  /** `task(job)` on node `k`: `addTask(job)`, then `start`. */
  function TaskViews<D>(vs: seq<NodeView<D>>, k: nat, job: nat): (r: seq<NodeView<D>>)
    requires Linked(vs) && k < |vs|
    ensures Linked(r) && |r| == |vs|
  {
    LinkedUpdate(vs, k, vs[k].(exec := AddedTask(vs[k].exec, job)));
    StartViews(vs[k := vs[k].(exec := AddedTask(vs[k].exec, job))], k)
  }

  /** `tasks(jobs)` on node `k`: `addTasks(jobs)`, then `start`. */
  function TasksViews<D>(vs: seq<NodeView<D>>, k: nat, jobs: seq<nat>): (r: seq<NodeView<D>>)
    requires Linked(vs) && k < |vs|
    ensures Linked(r) && |r| == |vs|
  {
    LinkedUpdate(vs, k, vs[k].(exec := ExecAddedAll(vs[k].exec, jobs)));
    StartViews(vs[k := vs[k].(exec := ExecAddedAll(vs[k].exec, jobs))], k)
  }

  /** `next(job)` / `nexts(jobs)` on node `k`: a new, unstarted node created
      by `k` becomes `k`'s successor. */
  function AppendViews<D>(vs: seq<NodeView<D>>, k: nat, e: ExecView<D>): (r: seq<NodeView<D>>)
    requires Linked(vs) && k < |vs|
    ensures Linked(r) && |r| == |vs| + 1
  {
    vs[k := vs[k].(next := Some(|vs|))] + [NodeView(e, None, Some(k))]
  }

  // ===========================================================================
  // The heap

  /** The nodes of one chain family, in creation order. */
  class Registry<D> {
    ghost var nodes: seq<Node<D>>

    ghost constructor ()
      ensures nodes == []
    {
      nodes := [];
    }

    ghost predicate Holds(n: Node<D>)
      reads this
    {
      n.reg == this && n.idx < |nodes| && nodes[n.idx] == n
    }

    /** One node's links: its relay and its successor are earlier and later
        nodes of this family, and a group node keeps a group. */
    ghost predicate Sound(n: Node<D>)
      reads this, n
    {
      (n.creator != null ==> Holds(n.creator) && n.creator.idx < n.idx)
      && (n.next != null ==> Holds(n.next) && n.idx < n.next.idx)
      && (n.isGroup <==> n.exec.GroupState?)
    }

    ghost predicate Valid()
      reads this, nodes
    {
      (forall k :: 0 <= k < |nodes| ==> nodes[k].reg == this && nodes[k].idx == k)
      && (forall k :: 0 <= k < |nodes| ==> Sound(nodes[k]))
    }

    ghost function Views(): (vs: seq<NodeView<D>>)
      reads this, nodes
      ensures |vs| == |nodes|
      ensures forall k :: 0 <= k < |nodes| ==> vs[k] == nodes[k].View()
      ensures Valid() ==> Linked(vs)
    {
      seq(|nodes|, k requires 0 <= k < |nodes| reads this, nodes => nodes[k].View())
    }
  }

  class Node<D> {
    /** `task` */
    var exec: ExecView<D>
    /** `nextTask` */
    var next: Node?<D>
    /** The node `errorDidAdded` relays to: the node that created this one. */
    const creator: Node?<D>
    /** An `AsyncMutiTask` node, whose executor is a group. */
    const isGroup: bool
    ghost const reg: Registry<D>
    ghost const idx: nat

    ghost function View(): NodeView<D>
      reads this
    {
      NodeView(exec, if next == null then None else Some(next.idx),
               if creator == null then None else Some(creator.idx))
    }

    /** `AsyncTask()`: a plain node without an executor, first of a new family. */
    constructor Root()
      ensures fresh(reg) && reg.Valid() && reg.nodes == [this] && reg.Holds(this)
      ensures reg.Views() == [NodeView(NoTask, None, None)]
    {
      exec := NoTask;
      next := null;
      creator := null;
      isGroup := false;
      reg := new Registry();
      idx := 0;
      new;
      reg.nodes := [this];
    }

    /** `AsyncMutiTask()`: a group node, first of a new family; its wrapper
        is installed on the group's `endAction`. */
    constructor GroupRoot()
      ensures fresh(reg) && reg.Valid() && reg.nodes == [this] && reg.Holds(this)
      ensures reg.Views() == [NodeView(GroupState(GroupNode()), None, None)]
    {
      exec := GroupState(GroupNode());
      next := null;
      creator := null;
      isGroup := true;
      reg := new Registry();
      idx := 0;
      new;
      reg.nodes := [this];
    }

    /** `createTask(job)` run by `parent`: a plain node holding a new unit,
        whose relay reaches `parent`. */
    constructor Child(parent: Node<D>, job: nat)
      requires parent.reg.Valid() && parent.reg.Holds(parent)
      modifies parent.reg
      ensures reg == parent.reg && reg.Valid() && reg.Holds(this) && reg.Holds(parent)
      ensures idx == old(|parent.reg.nodes|) && parent.idx < idx
      ensures reg.nodes == old(parent.reg.nodes) + [this]
      ensures exec == UnitState(Chained(job)) && next == null && creator == parent
      ensures reg.Views() == old(parent.reg.Views()) + [NodeView(UnitState(Chained(job)), None, Some(parent.idx))]
    {
      exec := UnitState(Chained(job));
      next := null;
      creator := parent;
      isGroup := false;
      reg := parent.reg;
      idx := |parent.reg.nodes|;
      new;
      reg.nodes := reg.nodes + [this];
    }

    /** `createMutiTask(jobs)` run by `parent`: a group node whose relay
        reaches `parent`, given one member per callable. */
    constructor GroupChild(parent: Node<D>, jobs: seq<nat>)
      requires parent.reg.Valid() && parent.reg.Holds(parent)
      modifies parent.reg
      ensures reg == parent.reg && reg.Valid() && reg.Holds(this) && reg.Holds(parent)
      ensures idx == old(|parent.reg.nodes|) && parent.idx < idx
      ensures reg.nodes == old(parent.reg.nodes) + [this]
      ensures exec == GroupState(AddedAll(GroupNode(), jobs)) && next == null && creator == parent
      ensures reg.Views() == old(parent.reg.Views()) + [NodeView(GroupState(AddedAll(GroupNode(), jobs)), None, Some(parent.idx))]
    {
      exec := GroupState(GroupNode());
      next := null;
      creator := parent;
      isGroup := true;
      reg := parent.reg;
      idx := |parent.reg.nodes|;
      new;
      reg.nodes := reg.nodes + [this];
      AddTasks(jobs);
    }

    /** `AsyncTask.task(job)`: a new family whose one node runs `job`. */
    static method NewTask(job: nat) returns (n: Node<D>, events: seq<Event<D>>)
      ensures fresh(n) && fresh(n.reg) && n.reg.Valid() && n.reg.Holds(n)
      ensures n.reg.Views() == TaskViews([NodeView(NoTask, None, None)], 0, job)
      ensures events == [Submitted(job)]
    {
      n := new Node.Root();
      events := n.Task(job);
    }

    /** `AsyncTask.tasks(jobs)`: a new family whose one node runs the group of `jobs`. */
    static method NewTasks(jobs: seq<nat>) returns (n: Node<D>, events: seq<Event<D>>)
      ensures fresh(n) && fresh(n.reg) && n.reg.Valid() && n.reg.Holds(n)
      ensures n.reg.Views() == TasksViews([NodeView(GroupState(GroupNode()), None, None)], 0, jobs)
      ensures events == ExecStartLog(GroupState(AddedAll(GroupNode<D>(), jobs)))
    {
      n := new Node.GroupRoot();
      events := n.Tasks(jobs);
    }

    /** Every change of a node's executor goes through here: only this
        node's value changes, and the family stays valid. */
    method SetExec(e: ExecView<D>)
      requires reg.Valid() && reg.Holds(this) && (isGroup <==> e.GroupState?)
      modifies this`exec
      ensures reg.Valid()
      ensures reg.Views() == old(reg.Views())[idx := old(View()).(exec := e)]
    {
      ghost var vs := reg.Views();
      exec := e;
      assert forall k :: 0 <= k < |reg.nodes| && k != idx ==> reg.nodes[k].View() == vs[k];
    }

    /** `nextTask = nil` */
    method DropLink()
      requires reg.Valid() && reg.Holds(this)
      modifies this`next
      ensures reg.Valid()
      ensures reg.Views() == DropNext(old(reg.Views()), idx)
    {
      ghost var vs := reg.Views();
      next := null;
      assert forall k :: 0 <= k < |reg.nodes| && k != idx ==> reg.nodes[k].View() == vs[k];
    }

    /** `nextTask = n` for a node created after this one. */
    method SetNext(n: Node<D>)
      requires reg.Valid() && reg.Holds(this) && reg.Holds(n) && idx < n.idx
      modifies this`next
      ensures reg.Valid() && next == n
      ensures reg.Views() == old(reg.Views())[idx := old(View()).(next := Some(n.idx))]
    {
      ghost var vs := reg.Views();
      next := n;
      assert forall k :: 0 <= k < |reg.nodes| && k != idx ==> reg.nodes[k].View() == vs[k];
    }

    /** `start`: `task?.start()`. */
    method Start() returns (events: seq<Event<D>>)
      requires reg.Valid() && reg.Holds(this)
      modifies this`exec
      ensures reg.Valid()
      ensures reg.Views() == StartViews(old(reg.Views()), idx)
      ensures events == ExecStartLog(old(exec))
    {
      events := ExecStartLog(exec);
      SetExec(ExecStarted(exec));
    }

    /** `end(s)`, which the node's wrapper calls. */
    method End(s: State<D>) returns (events: seq<Event<D>>)
      requires reg.Valid() && reg.Holds(this)
      modifies reg.nodes
      ensures reg.Valid()
      ensures reg.Views() == EndViews(old(reg.Views()), idx, s)
      ensures events == EndLog(old(reg.Views()), idx, s)
      decreases |reg.nodes| - idx, 0
    {
      events := [];
      if next != null {
        if IsSuccess(s) {
          events := next.Start();
        } else if IsFailure(s) {
          next.CancelExec();
        }
      }
      DropLink();
    }

    /** `task?.cancel()`, as `end` calls it on the successor. */
    method CancelExec()
      requires reg.Valid() && reg.Holds(this)
      modifies reg.nodes
      ensures reg.Valid()
      ensures reg.Views() == CancelViews(old(reg.Views()), idx)
      decreases |reg.nodes| - idx, 1
    {
      var forwards := ExecCancelForwards(exec);
      SetExec(ExecCancelled(exec));
      if forwards {
        var _ := End(State.Cancel);
      }
    }

    /** The callable of the node's unit reports `s` through the unit's
        `end(s)`; the wrapper passes it on to the node the first time. */
    method Report(s: State<D>) returns (events: seq<Event<D>>)
      requires reg.Valid() && reg.Holds(this) && exec.UnitState?
      modifies reg.nodes
      ensures reg.Valid()
      ensures reg.Views() == ReportViews(old(reg.Views()), idx, s)
      ensures events == ReportLog(old(reg.Views()), idx, s)
    {
      var u := exec.unit;
      events := EndCalls(u, s, Unset, Unset);
      SetExec(UnitState(Ended(u, s)));
      if Fires(u.hook) {
        var more := End(s);
        events := events + more;
      }
    }

    /** The callable of member `i` of the node's group reports `s`; a join
        that reaches the node ends it with the group's new state. */
    method MemberReport(i: nat, s: State<D>) returns (events: seq<Event<D>>)
      requires reg.Valid() && reg.Holds(this) && exec.GroupState? && i < |exec.group.members|
      modifies reg.nodes
      ensures reg.Valid()
      ensures reg.Views() == MemberReportViews(old(reg.Views()), idx, i, s)
      ensures events == MemberReportLog(old(reg.Views()), idx, i, s)
    {
      var g := exec.group;
      events := MemberEndCalls(g, i, s);
      SetExec(GroupState(MemberEnded(g, i, s)));
      if MemberEndForwards(g, i, s) {
        var more := End(MemberEnded(g, i, s).state);
        events := events + more;
      }
    }

    /** `complete(h)` */
    method Complete(h: nat)
      requires reg.Valid() && reg.Holds(this)
      modifies this`exec
      ensures reg.Valid()
      ensures reg.Views() == CompleteViews(old(reg.Views()), idx, h)
    {
      SetExec(WithComplete(exec, h));
    }

    /** `error(h)` */
    method Error(h: nat)
      requires reg.Valid() && reg.Holds(this)
      modifies reg.nodes
      ensures reg.Valid()
      ensures reg.Views() == ErrorViews(old(reg.Views()), idx, h)
      decreases idx, 1
    {
      SetExec(WithError(exec, h));
      Relay(h);
    }

    /** `transmitError(h)`: the relay `errorDidAdded` installed by the creator. */
    method Relay(h: nat)
      requires reg.Valid() && reg.Holds(this)
      modifies reg.nodes
      ensures reg.Valid()
      ensures reg.Views() == RelayViews(old(reg.Views()), idx, h)
      decreases idx, 0
    {
      if creator != null {
        if ErrorSlot(creator.exec) == Unset {
          creator.Error(h);
        } else {
          creator.Relay(h);
        }
      }
    }

    /** `addTask(job)` */
    method AddTask(job: nat)
      requires reg.Valid() && reg.Holds(this)
      modifies this`exec
      ensures reg.Valid()
      ensures reg.Views() == old(reg.Views())[idx := old(View()).(exec := AddedTask(old(exec), job))]
    {
      SetExec(AddedTask(exec, job));
    }

    /** `task(job)`: `addTask(job)`, then `start`. */
    method Task(job: nat) returns (events: seq<Event<D>>)
      requires reg.Valid() && reg.Holds(this)
      modifies this`exec
      ensures reg.Valid()
      ensures reg.Views() == TaskViews(old(reg.Views()), idx, job)
      ensures events == ExecStartLog(AddedTask(old(exec), job))
    {
      AddTask(job);
      events := Start();
    }

    /** `addTasks(jobs)`: each callable becomes a new member, in order; a
        node whose executor is not a group ignores the call. */
    method AddTasks(jobs: seq<nat>)
      requires reg.Valid() && reg.Holds(this)
      modifies this`exec
      ensures reg.Valid()
      ensures reg.Views() == old(reg.Views())[idx := old(View()).(exec := ExecAddedAll(old(exec), jobs))]
    {
      if !exec.GroupState? {
        return;
      }
      ghost var g0 := exec.group;
      for i := 0 to |jobs|
        invariant reg.Valid() && exec == GroupState(AddedAll(g0, jobs[..i]))
        invariant reg.Views() == old(reg.Views())[idx := old(View()).(exec := exec)]
      {
        assert jobs[..i + 1][..i] == jobs[..i];
        SetExec(GroupState(Added(exec.group, Created(jobs[i]))));
      }
      assert jobs[..|jobs|] == jobs;
    }

    /** `tasks(jobs)`: `addTasks(jobs)`, then `start`. */
    method Tasks(jobs: seq<nat>) returns (events: seq<Event<D>>)
      requires reg.Valid() && reg.Holds(this)
      modifies this`exec
      ensures reg.Valid()
      ensures reg.Views() == TasksViews(old(reg.Views()), idx, jobs)
      ensures events == ExecStartLog(ExecAddedAll(old(exec), jobs))
    {
      AddTasks(jobs);
      events := Start();
    }

    /** `next(job)`: a new plain node becomes the successor and is returned, unstarted. */
    method Next(job: nat) returns (child: Node<D>)
      requires reg.Valid() && reg.Holds(this)
      modifies reg, this`next
      ensures fresh(child) && child.reg == reg && reg.Valid() && reg.Holds(this) && reg.Holds(child)
      ensures next == child && reg.nodes == old(reg.nodes) + [child] && child.idx == old(|reg.nodes|)
      ensures child.exec == UnitState(Chained(job)) && child.next == null && child.creator == this
      ensures reg.Views() == AppendViews(old(reg.Views()), idx, UnitState(Chained(job)))
    {
      child := new Node.Child(this, job);
      SetNext(child);
    }

    /** `nexts(jobs)`: a new group node becomes the successor and is returned, unstarted. */
    method Nexts(jobs: seq<nat>) returns (child: Node<D>)
      requires reg.Valid() && reg.Holds(this)
      modifies reg, this`next
      ensures fresh(child) && child.reg == reg && reg.Valid() && reg.Holds(this) && reg.Holds(child)
      ensures next == child && reg.nodes == old(reg.nodes) + [child] && child.idx == old(|reg.nodes|)
      ensures child.exec == GroupState(AddedAll(GroupNode(), jobs)) && child.next == null && child.creator == this
      ensures reg.Views() == AppendViews(old(reg.Views()), idx, GroupState(AddedAll(GroupNode(), jobs)))
    {
      child := new Node.GroupChild(this, jobs);
      SetNext(child);
    }
  }
}
