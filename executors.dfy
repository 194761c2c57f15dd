/** The two executors behind the `OneTask` interface: a single unit of work
    (`Task`) and a fan-out/join group of units (`MutiTask`).

    Each class keeps the source's fields and updates them in place.  Each
    method is specified by a pure function of the object's value view
    (`View()`) before the call; the properties the library promises are
    lemmas about those functions.

    Callbacks.  An executor's `endAction` is a closure that reaches its
    owner (the chain node, or for a member the group).  Here the executor
    method only reports whether its `endAction` reached the owner
    (`forwarded`), and the owner performs its own reaction afterwards, which
    keeps the source's order: state, then handler, then `endAction`. */
module Executors {
  import opened Outcomes

  /** A `complete`/`error` slot: empty; a caller's handler, identified by a
      number (invoking it is recorded as a trace event); or the forwarding
      closure `MutiTask.add` installs on a member, which calls the group's own
      handler of the same kind. */
  datatype Handler = Unset | Installed(id: nat) | ToGroup

  /** An `endAction` slot: empty; the wrapper a chain node installs, which
      forwards to the node only while `armed` and disarms itself on the first
      call; or the counting closure `MutiTask.add` installs on a member. */
  datatype EndHook = Detached | ChainOnce(armed: bool) | Counted

  /** What the outside world observes: a unit's callable (identified, like
      a handler, by a number) handed to the concurrent queue, and a caller's
      handler invoked with a result. */
  datatype Event<D> = Submitted(job: nat) | Called(handler: nat, result: Result<D>)

  /** Whether calling the `endAction` in this slot reaches the owner. */
  predicate Fires(hook: EndHook) {
    hook == ChainOnce(true) || hook == Counted
  }

  /** The slot after its `endAction` was called once. */
  function AfterCall(hook: EndHook): EndHook {
    if hook.ChainOnce? then ChainOnce(false) else hook
  }

  /** Invoking handler slot `h` with `r`; `via` is the group's handler of the
      same kind, which a forwarding slot reaches. */
  function Invoke<D>(h: Handler, via: Handler, r: Result<D>): seq<Event<D>> {
    match h
    case Installed(id) => [Called(id, r)]
    case ToGroup => if via.Installed? then [Called(via.id, r)] else []
    case Unset => []
  }

  // ===========================================================================
  // Unit (`Task`)

  /** The value of a unit's fields: its callable, its state, its handler
      slots and its `endAction` slot. */
  datatype UnitView<D> = UnitView(job: nat, state: State<D>, onComplete: Handler, onError: Handler, hook: EndHook)

  /** A new unit: idle, no handlers, no `endAction`. */
  function Created<D>(job: nat): UnitView<D> {
    UnitView(job, Idle, Unset, Unset, Detached)
  }

  /** `start`: only an idle unit moves to `doing`. */
  function Started<D>(v: UnitView<D>): UnitView<D> {
    if v.state.Idle? then v.(state := Doing) else v
  }

  /** `start` submits the callable exactly when it moves the unit. */
  function StartLog<D>(v: UnitView<D>): seq<Event<D>> {
    if v.state.Idle? then [Submitted(v.job)] else []
  }

  /** `cancel`: only an idle unit moves to `cancel`, calling its `endAction`. */
  function Cancelled<D>(v: UnitView<D>): UnitView<D> {
    if v.state.Idle? then v.(state := Cancel, hook := AfterCall(v.hook)) else v
  }

  /** Whether `cancel` reaches the unit's owner. */
  predicate CancelForwards<D>(v: UnitView<D>) {
    v.state.Idle? && Fires(v.hook)
  }

  /** `end(s)`: the state is written whatever it was, and the `endAction` is called. */
  function Ended<D>(v: UnitView<D>, s: State<D>): UnitView<D> {
    v.(state := s, hook := AfterCall(v.hook))
  }

  /** The handler `end(s)` invokes: the complete handler for `complete(r)`,
      the error handler for `error(r)`, none otherwise. */
  function EndCalls<D>(v: UnitView<D>, s: State<D>, viaComplete: Handler, viaError: Handler): seq<Event<D>> {
    match s
    case Complete(r) => Invoke(v.onComplete, viaComplete, r)
    case Error(r) => Invoke(v.onError, viaError, r)
    case _ => []
  }

  class Unit<D> {
    /** The callable (`task`) the unit submits when started. */
    const job: nat
    var state: State<D>
    var onComplete: Handler
    var onError: Handler
    var hook: EndHook

    ghost function View(): UnitView<D>
      reads this
    {
      UnitView(job, state, onComplete, onError, hook)
    }

    constructor (job: nat)
      ensures View() == Created(job)
    {
      this.job := job;
      state := Idle;
      onComplete := Unset;
      onError := Unset;
      hook := Detached;
    }

    /** `start`: from `idle` move to `doing` and submit the callable to the
        queue; from any other state do nothing. */
    method Start() returns (submitted: seq<Event<D>>)
      modifies this`state
      ensures View() == Started(old(View()))
      ensures submitted == StartLog(old(View()))
    {
      if !state.Idle? {
        return [];
      }
      state := Doing;
      submitted := [Submitted(job)];
    }

    /** `end(s)`: write `s` without looking at the current state, invoke the
        matching handler, then call the `endAction`.  `viaComplete` and
        `viaError` are the handlers a forwarding slot reaches. */
    method End(s: State<D>, viaComplete: Handler, viaError: Handler) returns (calls: seq<Event<D>>, forwarded: bool)
      modifies this`state, this`hook
      ensures View() == Ended(old(View()), s)
      ensures calls == EndCalls(old(View()), s, viaComplete, viaError)
      ensures forwarded == Fires(old(hook))
    {
      state := s;
      match s {
        case Complete(r) => calls := Invoke(onComplete, viaComplete, r);
        case Error(r) => calls := Invoke(onError, viaError, r);
        case _ => calls := [];
      }
      forwarded := Fires(hook);
      hook := AfterCall(hook);
    }

    /** `cancel`: from `idle` move to `cancel` and call the `endAction`; a
        running or ended unit is left alone. */
    method Cancel() returns (forwarded: bool)
      modifies this`state, this`hook
      ensures View() == Cancelled(old(View()))
      ensures forwarded == CancelForwards(old(View()))
    {
      if !state.Idle? {
        return false;
      }
      state := State.Cancel;
      forwarded := Fires(hook);
      hook := AfterCall(hook);
    }
  }

  // ===========================================================================
  // Aggregate (`MutiTask`)

  /** The value of a group's fields, with the views of its members in order. */
  datatype GroupView<D> = GroupView(members: seq<UnitView<D>>, state: State<D>, onComplete: Handler,
                                    onError: Handler, hook: EndHook, endCount: nat)

  ghost function MemberViews<D>(ms: seq<Unit<D>>): (vs: seq<UnitView<D>>)
    reads ms
    ensures |vs| == |ms|
    ensures forall k :: 0 <= k < |ms| ==> vs[k] == ms[k].View()
  {
    seq(|ms|, k requires 0 <= k < |ms| reads ms => ms[k].View())
  }

  /** A new group: no members, idle, no handlers, no `endAction`, nothing counted. */
  function Empty<D>(): GroupView<D> {
    GroupView([], Idle, Unset, Unset, Detached, 0)
  }

  /** The slots `add` installs on a member. */
  function Wired<D>(v: UnitView<D>): UnitView<D> {
    v.(onComplete := ToGroup, onError := ToGroup, hook := Counted)
  }

  /** `add(u)`: only an idle group takes the member, at the end of the list. */
  function Added<D>(g: GroupView<D>, u: UnitView<D>): GroupView<D> {
    if g.state.Idle? then g.(members := g.members + [Wired(u)]) else g
  }

  function StartedAll<D>(vs: seq<UnitView<D>>): (r: seq<UnitView<D>>)
    ensures |r| == |vs|
    ensures forall k :: 0 <= k < |vs| ==> r[k] == Started(vs[k])
  {
    seq(|vs|, k requires 0 <= k < |vs| => Started(vs[k]))
  }

  /** What starting the first `n` members submits, in order. */
  function StartLogs<D>(vs: seq<UnitView<D>>, n: nat): seq<Event<D>>
    requires n <= |vs|
  {
    if n == 0 then [] else StartLogs(vs, n - 1) + StartLog(vs[n - 1])
  }

  /** `start`: an idle group moves to `doing` (any other state is kept), then
      every member is started in order. */
  function GroupStarted<D>(g: GroupView<D>): GroupView<D> {
    g.(state := if g.state.Idle? then Doing else g.state, members := StartedAll(g.members))
  }

  function CancelledAll<D>(vs: seq<UnitView<D>>): (r: seq<UnitView<D>>)
    ensures |r| == |vs|
    ensures forall k :: 0 <= k < |vs| ==> r[k] == Cancelled(vs[k])
  {
    seq(|vs|, k requires 0 <= k < |vs| => Cancelled(vs[k]))
  }

  /** How many members' `cancel` reaches the group's counter. */
  function CancelCount<D>(vs: seq<UnitView<D>>, n: nat): nat
    requires n <= |vs|
  {
    if n == 0 then 0 else CancelCount(vs, n - 1) + (if CancelForwards(vs[n - 1]) then 1 else 0)
  }

  /** `cancel`: the group is set to `cancel` whatever its state, every member
      is cancelled in order, and each member that was idle adds one to the
      counter; the group's own `endAction` is not called. */
  function GroupCancelled<D>(g: GroupView<D>): GroupView<D> {
    g.(state := Cancel, members := CancelledAll(g.members), endCount := g.endCount + CancelCount(g.members, |g.members|))
  }

  /** The results the join collects: those of members in `complete` or
      `error`, in member order; members in any other state are skipped. */
  function Collect<D>(vs: seq<UnitView<D>>): seq<Result<D>> {
    if vs == [] then []
    else
      var last := vs[|vs| - 1];
      Collect(vs[..|vs| - 1]) + (if last.state.Complete? || last.state.Error? then [last.state.result] else [])
  }

  /** The join check (`MutiTask.end`) fires only while the group is `doing`
      and every member has been counted. */
  predicate JoinFires<D>(g: GroupView<D>) {
    g.state.Doing? && g.endCount == |g.members|
  }

  /** The join: `completeAll` of the collected results, and the `endAction` called. */
  function AfterJoin<D>(g: GroupView<D>): GroupView<D> {
    if JoinFires(g) then g.(state := CompleteAll(Collect(g.members)), hook := AfterCall(g.hook)) else g
  }

  /** The join invokes the group's complete handler with the composite result. */
  function JoinCalls<D>(g: GroupView<D>): seq<Event<D>> {
    if JoinFires(g) then Invoke(g.onComplete, Unset, Outcomes.Joined(Collect(g.members))) else []
  }

  /** Whether the join reaches the group's owner. */
  predicate JoinForwards<D>(g: GroupView<D>) {
    JoinFires(g) && Fires(g.hook)
  }

  /** The group after member `i` ran `end(s)` and, its counting `endAction`
      having been called, the counter went up by one before the join check. */
  function MemberEnded<D>(g: GroupView<D>, i: nat, s: State<D>): GroupView<D>
    requires i < |g.members|
  {
    var m := g.members[i];
    var g1 := g.(members := g.members[i := Ended(m, s)]);
    if Fires(m.hook) then AfterJoin(g1.(endCount := g1.endCount + 1)) else g1
  }

  /** What member `i`'s `end(s)` invokes: its own handler (reaching the
      group's handler), then whatever the join invokes. */
  function MemberEndCalls<D>(g: GroupView<D>, i: nat, s: State<D>): seq<Event<D>>
    requires i < |g.members|
  {
    var m := g.members[i];
    var g1 := g.(members := g.members[i := Ended(m, s)]);
    EndCalls(m, s, g.onComplete, g.onError) + (if Fires(m.hook) then JoinCalls(g1.(endCount := g1.endCount + 1)) else [])
  }

  predicate MemberEndForwards<D>(g: GroupView<D>, i: nat, s: State<D>)
    requires i < |g.members|
  {
    var m := g.members[i];
    var g1 := g.(members := g.members[i := Ended(m, s)]);
    Fires(m.hook) && JoinForwards(g1.(endCount := g1.endCount + 1))
  }

  function CancelledUpTo<D>(vs: seq<UnitView<D>>, i: nat): seq<UnitView<D>> {
    seq(|vs|, k requires 0 <= k < |vs| => if k < i then Cancelled(vs[k]) else vs[k])
  }

  function StartedUpTo<D>(vs: seq<UnitView<D>>, i: nat): seq<UnitView<D>> {
    seq(|vs|, k requires 0 <= k < |vs| => if k < i then Started(vs[k]) else vs[k])
  }

  class Aggregate<D> {
    var members: seq<Unit<D>>
    var state: State<D>
    var onComplete: Handler
    var onError: Handler
    var hook: EndHook
    var endCount: nat

    /** No unit is a member twice. */
    ghost predicate Distinct()
      reads this`members
    {
      forall i, j :: 0 <= i < j < |members| ==> members[i] != members[j]
    }

    ghost function View(): GroupView<D>
      reads this, members
    {
      GroupView(MemberViews(members), state, onComplete, onError, hook, endCount)
    }

    constructor ()
      ensures Distinct() && members == []
      ensures View() == Empty()
    {
      members := [];
      state := Idle;
      onComplete := Unset;
      onError := Unset;
      hook := Detached;
      endCount := 0;
    }

    /** `add(u)`: while idle, append `u` and wire its handlers and
        `endAction` to the group; otherwise leave everything unchanged. */
    method Add(u: Unit<D>)
      requires Distinct() && u !in members
      modifies this`members, u`onComplete, u`onError, u`hook
      ensures Distinct()
      ensures View() == Added(old(View()), old(u.View()))
      ensures !old(state).Idle? ==> u.View() == old(u.View())
    {
      if !state.Idle? {
        return;
      }
      members := members + [u];
      u.onComplete := ToGroup;
      u.onError := ToGroup;
      u.hook := Counted;
    }

    /** `start`: an idle group moves to `doing`; then every member is started in order. */
    method Start() returns (submitted: seq<Event<D>>)
      requires Distinct()
      modifies this`state, members
      ensures View() == GroupStarted(old(View()))
      ensures submitted == StartLogs(old(View()).members, |members|)
    {
      if state.Idle? {
        state := Doing;
      }
      submitted := StartMembers();
    }

    method StartMembers() returns (submitted: seq<Event<D>>)
      requires Distinct()
      modifies members
      ensures MemberViews(members) == StartedAll(old(MemberViews(members)))
      ensures submitted == StartLogs(old(MemberViews(members)), |members|)
    {
      ghost var before := MemberViews(members);
      submitted := [];
      for i := 0 to |members|
        invariant MemberViews(members) == StartedUpTo(before, i)
        invariant submitted == StartLogs(before, i)
      {
        var events := StartMember(i, members[i]);
        assert StartedUpTo(before, i)[i := Started(before[i])] == StartedUpTo(before, i + 1);
        submitted := submitted + events;
      }
      assert StartedUpTo(before, |members|) == StartedAll(before);
    }

    method StartMember(i: nat, u: Unit<D>) returns (events: seq<Event<D>>)
      requires Distinct() && i < |members| && u == members[i]
      modifies u`state
      ensures MemberViews(members) == old(MemberViews(members))[i := Started(old(u.View()))]
      ensures events == StartLog(old(u.View()))
    {
      events := u.Start();
    }

    /** The join check (`end`); the state argument is ignored: only the
        group's own state and counter decide. */
    method End(s: State<D>) returns (calls: seq<Event<D>>, forwarded: bool)
      modifies this`state, this`hook
      ensures View() == AfterJoin(old(View()))
      ensures calls == JoinCalls(old(View()))
      ensures forwarded == JoinForwards(old(View()))
    {
      if !state.Doing? {
        return [], false;
      }
      var count := endCount;
      if count != |members| {
        return [], false;
      }
      ghost var vs := MemberViews(members);
      var list := [];
      for i := 0 to |members|
        invariant list == Collect(vs[..i])
      {
        assert vs[..i + 1][..i] == vs[..i];
        match members[i].state {
          case Complete(r) => list := list + [r];
          case Error(r) => list := list + [r];
          case _ =>
        }
      }
      assert vs[..|members|] == vs;
      state := CompleteAll(list);
      calls := Invoke(onComplete, Unset, Outcomes.Joined(list));
      forwarded := Fires(hook);
      hook := AfterCall(hook);
    }

    /** Member `i` runs `end(s)`; its handlers forward to the group's, and its
        `endAction` adds one to the counter and runs the join check. */
    method MemberEnd(i: nat, s: State<D>) returns (calls: seq<Event<D>>, forwarded: bool)
      requires Distinct() && i < |members|
      modifies members`state, members`hook, this`endCount, this`state, this`hook
      ensures View() == MemberEnded(old(View()), i, s)
      ensures calls == MemberEndCalls(old(View()), i, s)
      ensures forwarded == MemberEndForwards(old(View()), i, s)
    {
      var counted;
      calls, counted := EndMember(i, members[i], s);
      forwarded := false;
      if counted {
        endCount := endCount + 1;
        var more;
        more, forwarded := End(s);
        calls := calls + more;
      }
    }

    /** `cancel`: set `cancel` whatever the state, then cancel every member in
        order; each member that was idle adds one to the counter.  The join
        check that member's `endAction` runs next is not repeated here: the
        group is `cancel`, so the check returns at once. */
    method Cancel()
      requires Distinct()
      modifies this`state, this`endCount, members
      ensures View() == GroupCancelled(old(View()))
    {
      ghost var g := View();
      state := State.Cancel;
      var counted := CancelMembers();
      endCount := endCount + counted;
      assert MemberViews(members) == CancelledAll(g.members);
    }

    /** Cancel every member in order; `counted` is how many of them called
        their counting `endAction`. */
    method CancelMembers() returns (counted: nat)
      requires Distinct()
      modifies members
      ensures MemberViews(members) == CancelledAll(old(MemberViews(members)))
      ensures counted == CancelCount(old(MemberViews(members)), |members|)
    {
      ghost var before := MemberViews(members);
      counted := 0;
      for i := 0 to |members|
        invariant MemberViews(members) == CancelledUpTo(before, i)
        invariant counted == CancelCount(before, i)
      {
        var fired := CancelMember(i, members[i]);
        assert CancelledUpTo(before, i)[i := Cancelled(before[i])] == CancelledUpTo(before, i + 1);
        if fired {
          counted := counted + 1;
        }
      }
      assert CancelledUpTo(before, |members|) == CancelledAll(before);
    }

    method EndMember(i: nat, u: Unit<D>, s: State<D>) returns (calls: seq<Event<D>>, counted: bool)
      requires Distinct() && i < |members| && u == members[i]
      modifies u`state, u`hook
      ensures MemberViews(members) == old(MemberViews(members))[i := Ended(old(u.View()), s)]
      ensures calls == EndCalls(old(u.View()), s, onComplete, onError)
      ensures counted == Fires(old(u.hook))
    {
      calls, counted := u.End(s, onComplete, onError);
    }

    method CancelMember(i: nat, u: Unit<D>) returns (counted: bool)
      requires Distinct() && i < |members| && u == members[i]
      modifies u`state, u`hook
      ensures MemberViews(members) == old(MemberViews(members))[i := Cancelled(old(u.View()))]
      ensures counted == CancelForwards(old(u.View()))
    {
      counted := u.Cancel();
    }
  }
}
