/** The prototype controller (`MyGCD`), an earlier version of the chain:
    its `Task` has no `completeAll` state and `start` submits nothing, and
    the controller's `end` never starts or cancels the successor; it only
    drops the successor link.  The error relay is the same as the chain's.

    As in module `Chain`, a node keeps the value of its task; the `Task`
    class below is proved to implement the same value functions in place. */
module Prototype {
  import Outcomes
  import Executors

  // ===========================================================================
  // Results and states

  /** `MyGCD.Result`: a code, a message and an opaque payload. */
  datatype Result<D> = Result(code: int, message: string := "", data: Outcomes.Option<D> := Outcomes.None)

  /** `MyGCD.State`: five cases, without `completeAll`. */
  datatype State<D> = Idle | Doing | Complete(result: Result<D>) | Error(result: Result<D>) | Cancel

  /** `Result.success` */
  function Success<D>(): Result<D> {
    Result(200)
  }

  /** `Result.result(code, message, data)` */
  function Made<D>(code: int, message: Outcomes.Option<string>, data: Outcomes.Option<D> := Outcomes.None): Result<D> {
    Result(code, Outcomes.OrEmpty(message), data)
  }

  /** `State.sucess(data)` */
  function Succeeded<D>(data: Outcomes.Option<D> := Outcomes.None): State<D> {
    Complete(Made(200, Outcomes.None, data))
  }

  /** `State.error(code, message, data)` */
  function Failed<D>(code: int, message: Outcomes.Option<string> := Outcomes.None, data: Outcomes.Option<D> := Outcomes.None): State<D> {
    Error(Made(code, message, data))
  }

  /** The factories: `success` is code 200 with empty message and no data;
      a missing message becomes "" and a present one is kept;
      `sucess(d)` is `complete(Result(200, "", d))` and `error(c, m, d)` is
      `error(Result(c, m ?? "", d))`. */
  lemma Factories<D>(code: int, text: string, data: Outcomes.Option<D>)
    ensures Success<D>() == Result(200, "", Outcomes.None)
    ensures Made(code, Outcomes.None, data) == Result(code, "", data)
    ensures Made(code, Outcomes.Some(text), data) == Result(code, text, data)
    ensures Succeeded(data) == Complete(Result(200, "", data))
    ensures Failed(code, Outcomes.Some(text), data) == Error(Result(code, text, data))
    ensures Failed(code, Outcomes.None, data) == Error(Result(code, "", data))
  {
  }

  // ===========================================================================
  // Task

  /** A caller's handler invoked with a result. */
  datatype Call<D> = Called(handler: nat, result: Result<D>)

  /** The value of a task's fields: its callable, state, handler slots and
      `endAction` slot. */
  datatype TaskView<D> = TaskView(job: nat, state: State<D>, onComplete: Executors.Handler,
                                  onError: Executors.Handler, hook: Executors.EndHook)

  function Created<D>(job: nat): TaskView<D> {
    TaskView(job, Idle, Executors.Unset, Executors.Unset, Executors.Detached)
  }

  /** `start`: only an idle task moves to `doing`; nothing is submitted. */
  function Started<D>(v: TaskView<D>): TaskView<D> {
    if v.state.Idle? then v.(state := Doing) else v
  }

  /** `cancel`: only an idle task moves to `cancel`, calling its `endAction`. */
  function Cancelled<D>(v: TaskView<D>): TaskView<D> {
    if v.state.Idle? then v.(state := Cancel, hook := Executors.AfterCall(v.hook)) else v
  }

  predicate CancelForwards<D>(v: TaskView<D>) {
    v.state.Idle? && Executors.Fires(v.hook)
  }

  /** `end(s)`: the state is written whatever it was, and the `endAction` is called. */
  function Ended<D>(v: TaskView<D>, s: State<D>): TaskView<D> {
    v.(state := s, hook := Executors.AfterCall(v.hook))
  }

  function Invoke<D>(h: Executors.Handler, r: Result<D>): seq<Call<D>> {
    if h.Installed? then [Called(h.id, r)] else []
  }

  /** The handler `end(s)` invokes. */
  function EndCalls<D>(v: TaskView<D>, s: State<D>): seq<Call<D>> {
    match s
    case Complete(r) => Invoke(v.onComplete, r)
    case Error(r) => Invoke(v.onError, r)
    case _ => []
  }

  class Task<D> {
    /** The callable (`task`); the prototype never runs it. */
    const job: nat
    var state: State<D>
    var onComplete: Executors.Handler
    var onError: Executors.Handler
    var hook: Executors.EndHook

    ghost function View(): TaskView<D>
      reads this
    {
      TaskView(job, state, onComplete, onError, hook)
    }

    constructor (job: nat)
      ensures View() == Created(job)
    {
      this.job := job;
      state := Idle;
      onComplete := Executors.Unset;
      onError := Executors.Unset;
      hook := Executors.Detached;
    }

    /** `start`: from `idle` move to `doing`; the submission is commented
        out in this version. */
    method Start()
      modifies this`state
      ensures View() == Started(old(View()))
    {
      if state.Idle? {
        state := Doing;
      }
    }

    /** `end(s)`: write `s`, invoke the matching handler, call the `endAction`. */
    method End(s: State<D>) returns (calls: seq<Call<D>>, forwarded: bool)
      modifies this`state, this`hook
      ensures View() == Ended(old(View()), s)
      ensures calls == EndCalls(old(View()), s)
      ensures forwarded == Executors.Fires(old(hook))
    {
      state := s;
      match s {
        case Complete(r) => calls := Invoke(onComplete, r);
        case Error(r) => calls := Invoke(onError, r);
        case _ => calls := [];
      }
      forwarded := Executors.Fires(hook);
      hook := Executors.AfterCall(hook);
    }

    /** `cancel`: from `idle` move to `cancel` and call the `endAction`. */
    method Cancel() returns (forwarded: bool)
      modifies this`state, this`hook
      ensures View() == Cancelled(old(View()))
      ensures forwarded == CancelForwards(old(View()))
    {
      if !state.Idle? {
        return false;
      }
      state := State.Cancel;
      forwarded := Executors.Fires(hook);
      hook := Executors.AfterCall(hook);
    }
  }

  /** `start` acts only from `idle` and a second `start` is a no-op; `cancel`
      acts only from `idle` and reaches the owner when the wrapper is armed;
      `end(s)` writes `s` whatever the state was, invokes the complete handler
      only for `complete(r)` and the error handler only for `error(r)`, each
      with `r`; the wrapper forwards at most once. */
  lemma TaskLaws<D>(v: TaskView<D>, s: State<D>, t: State<D>)
    ensures v.state.Idle? ==> Started(v).state == Doing
    ensures !v.state.Idle? ==> Started(v) == v && Cancelled(v) == v && !CancelForwards(v)
    ensures Started(Started(v)) == Started(v)
    ensures v.state.Idle? ==> Cancelled(v).state == Cancel && (CancelForwards(v) <==> Executors.Fires(v.hook))
    ensures Ended(v, s).state == s
    ensures s.Complete? && v.onComplete.Installed? ==> EndCalls(v, s) == [Called(v.onComplete.id, s.result)]
    ensures s.Error? && v.onError.Installed? ==> EndCalls(v, s) == [Called(v.onError.id, s.result)]
    ensures !s.Complete? && !s.Error? ==> EndCalls(v, s) == []
    ensures v.hook.ChainOnce? ==> !Executors.Fires(Ended(v, s).hook) && !Executors.Fires(Ended(Ended(v, s), t).hook)
  {
  }

  // ===========================================================================
  // The controller

  /** The task `addTask` installs: its `endAction` is the node's
      forward-once wrapper. */
  function Chained<D>(job: nat): TaskView<D> {
    Created(job).(hook := Executors.ChainOnce(true))
  }

  /** `task?.error` */
  function ErrorSlot<D>(t: Outcomes.Option<TaskView<D>>): Executors.Handler {
    if t.Some? then t.value.onError else Executors.Unset
  }

  /** `task?.error = h` */
  function WithError<D>(t: Outcomes.Option<TaskView<D>>, h: nat): Outcomes.Option<TaskView<D>> {
    if t.Some? then Outcomes.Some(t.value.(onError := Executors.Installed(h))) else t
  }

  /** What the relay does to one ancestor. */
  function InstallIfUnset<D>(t: Outcomes.Option<TaskView<D>>, h: nat): Outcomes.Option<TaskView<D>> {
    if ErrorSlot(t) == Executors.Unset then WithError(t, h) else t
  }

  class Gcd<D> {
    /** `task` */
    var task: Outcomes.Option<TaskView<D>>
    /** `nextTask` */
    var next: Gcd?<D>
    /** The node `errorDidAdded` relays to: the node that created this one. */
    const creator: Gcd?<D>
    /** The number of relays between this node and its root. */
    ghost const depth: nat

    /** Every relay reaches a node of smaller depth. */
    ghost predicate Rooted()
      decreases depth
    {
      creator != null ==> creator.depth < depth && creator.Rooted()
    }

    /** This node and every node its relay walks through. */
    ghost function Lineage(): set<Gcd<D>>
      requires Rooted()
      decreases depth
    {
      {this} + (if creator == null then {} else creator.Lineage())
    }

    /** `MyGCD()`: a node without a task, first of a new family. */
    constructor Root()
      ensures task == Outcomes.None && next == null && creator == null && Rooted()
    {
      task := Outcomes.None;
      next := null;
      creator := null;
      depth := 0;
    }

    /** `createTask(job)` run by `parent`: a node holding a new task, whose
        relay reaches `parent`. */
    constructor Child(parent: Gcd<D>, job: nat)
      requires parent.Rooted()
      ensures task == Outcomes.Some(Chained(job)) && next == null && creator == parent && Rooted()
    {
      task := Outcomes.Some(Chained(job));
      next := null;
      creator := parent;
      depth := parent.depth + 1;
    }

    /** `start`: `task?.start()`. */
    method Start()
      modifies this`task
      ensures task == if old(task).Some? then Outcomes.Some(Started(old(task).value)) else Outcomes.None
    {
      if task.Some? {
        task := Outcomes.Some(Started(task.value));
      }
    }

    /** `task(job)`: `addTask(job)` (a new task replaces the old one), then `start`. */
    method Task(job: nat)
      modifies this`task
      ensures task == Outcomes.Some(Chained(job).(state := Doing))
    {
      task := Outcomes.Some(Chained(job));
      Start();
    }

    /** `MyGCD.task(job)` */
    static method NewTask(job: nat) returns (n: Gcd<D>)
      ensures fresh(n) && n.Rooted() && n.creator == null && n.next == null
      ensures n.task == Outcomes.Some(Chained(job).(state := Doing))
    {
      n := new Gcd.Root();
      n.Task(job);
    }

    /** `next(job)`: a new, unstarted node becomes the successor and is returned. */
    method Next(job: nat) returns (child: Gcd<D>)
      requires Rooted()
      modifies this`next
      ensures fresh(child) && next == child && child.creator == this && child.Rooted()
      ensures child.task == Outcomes.Some(Chained(job)) && child.next == null
    {
      child := new Gcd.Child(this, job);
      next := child;
    }

    /** `complete(h)` */
    method Complete(h: nat)
      modifies this`task
      ensures task == if old(task).Some? then Outcomes.Some(old(task).value.(onComplete := Executors.Installed(h))) else Outcomes.None
    {
      if task.Some? {
        task := Outcomes.Some(task.value.(onComplete := Executors.Installed(h)));
      }
    }

    /** `end(s)`: whatever `s` is, the successor is neither started nor
        cancelled; only the link to it is dropped. */
    method End(s: State<D>)
      modifies this`next
      ensures next == null
    {
      next := null;
    }

    /** The callable of the node's task reports `s` through the task's
        `end(s)`; the wrapper passes it on to the node the first time.  The
        successor's task is never touched.  In this version `Task.start`
        submits nothing, so no path of the prototype runs the callable: this
        is the step the callable would take if it ran. */
    method Report(s: State<D>) returns (calls: seq<Call<D>>)
      requires task.Some?
      modifies this`task, this`next
      ensures task == Outcomes.Some(Ended(old(task).value, s))
      ensures calls == EndCalls(old(task).value, s)
      ensures next == if Executors.Fires(old(task).value.hook) then null else old(next)
    {
      var t := task.value;
      calls := EndCalls(t, s);
      task := Outcomes.Some(Ended(t, s));
      if Executors.Fires(t.hook) {
        End(s);
      }
    }

    /** `error(h)`: install `h` here, then relay it. */
    method Error(h: nat)
      requires Rooted()
      modifies Lineage()`task
      ensures task == WithError(old(task), h)
      ensures forall a :: a in Lineage() && a != this && old(allocated(a)) ==> a.task == InstallIfUnset(old(a.task), h)
      decreases depth, 1
    {
      task := WithError(task, h);
      Relay(h);
    }

    /** `transmitError(h)`: every node the relay walks through takes `h` if it
        has no error handler and keeps its own otherwise. */
    method Relay(h: nat)
      requires Rooted()
      modifies Lineage()`task
      ensures task == old(task)
      ensures forall a :: a in Lineage() && a != this && old(allocated(a)) ==> a.task == InstallIfUnset(old(a.task), h)
      decreases depth, 0
    {
      if creator != null {
        LineageIsEarlier(creator);
        if ErrorSlot(creator.task) == Executors.Unset {
          creator.Error(h);
        } else {
          creator.Relay(h);
        }
      }
    }
  }

  /** Every node of a lineage other than its head lies strictly closer to
      the root, so a node is never on its creator's lineage. */
  lemma {:induction false} LineageIsEarlier<D>(n: Gcd<D>)
    requires n.Rooted()
    ensures forall a :: a in n.Lineage() ==> a.depth <= n.depth
    decreases n.depth
  {
    if n.creator != null {
      LineageIsEarlier(n.creator);
    }
  }
}
