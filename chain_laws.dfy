/** What the chain controller promises, stated over the pure functions of
    the family's value that specify the node methods. */
module ChainLaws {
  import opened Outcomes
  import opened Executors
  import opened ExecutorLaws
  import opened Chain

  // ===========================================================================
  // `end`: what a node does to its successor

  /** `end` never touches a node created before the ending one, leaves the
      ending node's executor alone, drops its successor link, and keeps
      every relay; `cancel` on node `j` likewise leaves earlier nodes alone
      and cancels `j`'s executor, dropping `j`'s link exactly when the
      cancel reached the node. */
  lemma {:induction false} EndFrame<D>(vs: seq<NodeView<D>>, k: nat, s: State<D>)
    requires Linked(vs) && k < |vs|
    ensures forall m :: 0 <= m < k ==> EndViews(vs, k, s)[m] == vs[m]
    ensures EndViews(vs, k, s)[k] == vs[k].(next := None)
    ensures forall m :: 0 <= m < |vs| ==> EndViews(vs, k, s)[m].creator == vs[m].creator
    decreases |vs| - k, 0
  {
    if vs[k].next.Some? && !IsSuccess(s) && IsFailure(s) {
      CancelFrame(vs, vs[k].next.value);
    }
  }

  lemma {:induction false} CancelFrame<D>(vs: seq<NodeView<D>>, j: nat)
    requires Linked(vs) && j < |vs|
    ensures forall m :: 0 <= m < j ==> CancelViews(vs, j)[m] == vs[m]
    ensures CancelViews(vs, j)[j].exec == ExecCancelled(vs[j].exec)
    ensures CancelViews(vs, j)[j].next == if ExecCancelForwards(vs[j].exec) then None else vs[j].next
    ensures forall m :: 0 <= m < |vs| ==> CancelViews(vs, j)[m].creator == vs[m].creator
    decreases |vs| - j, 1
  {
    var ws := vs[j := vs[j].(exec := ExecCancelled(vs[j].exec))];
    LinkedUpdate(vs, j, ws[j]);
    if ExecCancelForwards(vs[j].exec) {
      EndFrame(ws, j, State.Cancel);
    }
  }

  /** `end(s)` on node `k`: `complete`/`completeAll` start the successor,
      `error`/`cancel` cancel its executor, `idle`/`doing` leave it alone;
      `nextTask` is nil afterwards in every case, and only a success submits
      anything. */
  lemma EndDrivesSuccessor<D>(vs: seq<NodeView<D>>, k: nat, s: State<D>)
    requires Linked(vs) && k < |vs|
    ensures EndViews(vs, k, s)[k].next == None
    ensures EndViews(vs, k, s)[k].exec == vs[k].exec
    ensures vs[k].next.Some? && IsSuccess(s) ==>
              var j := vs[k].next.value;
              EndViews(vs, k, s)[j] == vs[j].(exec := ExecStarted(vs[j].exec))
              && (forall m :: 0 <= m < |vs| && m != j && m != k ==> EndViews(vs, k, s)[m] == vs[m])
              && EndLog(vs, k, s) == ExecStartLog(vs[j].exec)
    ensures vs[k].next.Some? && IsFailure(s) ==>
              var j := vs[k].next.value;
              EndViews(vs, k, s)[j].exec == ExecCancelled(vs[j].exec)
              && (forall m :: 0 <= m < j && m != k ==> EndViews(vs, k, s)[m] == vs[m])
              && EndLog(vs, k, s) == []
    ensures vs[k].next.None? || (!IsSuccess(s) && !IsFailure(s)) ==>
              EndViews(vs, k, s) == vs[k := vs[k].(next := None)] && EndLog(vs, k, s) == []
  {
    EndFrame(vs, k, s);
    if vs[k].next.Some? && IsFailure(s) {
      CancelFrame(vs, vs[k].next.value);
    }
  }

  /** A second `end` on a node does nothing: its link is already gone. */
  lemma EndTwiceIsNoop<D>(vs: seq<NodeView<D>>, k: nat, s: State<D>, t: State<D>)
    requires Linked(vs) && k < |vs|
    ensures EndViews(EndViews(vs, k, s), k, t) == EndViews(vs, k, s)
    ensures EndLog(EndViews(vs, k, s), k, t) == []
  {
    EndFrame(vs, k, s);
  }

  // ===========================================================================
  // The cancel cascade

  /** Node `m` is reached by the cascade that cancelling node `j` starts:
      it is `j`, or `j`'s cancel reached its node and `m` is reached from
      `j`'s successor. */
  ghost predicate Reached<D>(vs: seq<NodeView<D>>, j: nat, m: nat)
    requires Linked(vs) && j < |vs|
    decreases |vs| - j
  {
    m == j || (ExecCancelForwards(vs[j].exec) && vs[j].next.Some? && Reached(vs, vs[j].next.value, m))
  }

  lemma {:induction false} ReachedIsLater<D>(vs: seq<NodeView<D>>, j: nat, m: nat)
    requires Linked(vs) && j < |vs| && Reached(vs, j, m)
    ensures j <= m < |vs|
    decreases |vs| - j
  {
    if m != j {
      ReachedIsLater(vs, vs[j].next.value, m);
    }
  }

  /** Reaching depends only on the nodes from `j` on. */
  lemma {:induction false} ReachedAgree<D>(vs: seq<NodeView<D>>, ws: seq<NodeView<D>>, j: nat, m: nat)
    requires Linked(vs) && Linked(ws) && |vs| == |ws| && j < |vs|
    requires forall i :: j <= i < |vs| ==> ws[i] == vs[i]
    ensures Reached(ws, j, m) <==> Reached(vs, j, m)
    decreases |vs| - j
  {
    if vs[j].next.Some? {
      ReachedAgree(vs, ws, vs[j].next.value, m);
    }
  }

  /** The cascade in closed form: exactly the reached nodes have their
      executor cancelled; a reached node whose cancel reached it loses its
      successor link; everything else is unchanged.  The cascade stops at a
      group (its cancel never reaches its node), at a unit that was not
      idle, and at a unit whose wrapper already forwarded. */
  lemma {:induction false} CancelCascade<D>(vs: seq<NodeView<D>>, j: nat)
    requires Linked(vs) && j < |vs|
    ensures forall m :: 0 <= m < |vs| ==>
              CancelViews(vs, j)[m].exec == (if Reached(vs, j, m) then ExecCancelled(vs[m].exec) else vs[m].exec)
    ensures forall m :: 0 <= m < |vs| ==>
              CancelViews(vs, j)[m].next
              == (if Reached(vs, j, m) && ExecCancelForwards(vs[m].exec) then None else vs[m].next)
    ensures forall m :: 0 <= m < |vs| ==> CancelViews(vs, j)[m].creator == vs[m].creator
    decreases |vs| - j
  {
    var ws := vs[j := vs[j].(exec := ExecCancelled(vs[j].exec))];
    LinkedUpdate(vs, j, ws[j]);
    if ExecCancelForwards(vs[j].exec) && vs[j].next.Some? {
      var j' := vs[j].next.value;
      CancelCascade(ws, j');
      forall m | 0 <= m < |vs|
        ensures Reached(ws, j', m) <==> Reached(vs, j', m)
        ensures Reached(vs, j', m) ==> m != j
      {
        ReachedAgree(vs, ws, j', m);
        if Reached(vs, j', m) {
          ReachedIsLater(vs, j', m);
        }
      }
    }
  }

  /** A failure two links deep: when the successor is an idle unit whose
      wrapper is armed, its cancel ends it, which cancels its own successor. */
  lemma FailureReachesSecondSuccessor<D>(vs: seq<NodeView<D>>, k: nat, s: State<D>)
    requires Linked(vs) && k < |vs| && IsFailure(s) && vs[k].next.Some?
    requires ExecCancelForwards(vs[vs[k].next.value].exec) && vs[vs[k].next.value].next.Some?
    ensures var j := vs[k].next.value; var j2 := vs[j].next.value;
            EndViews(vs, k, s)[j].exec == ExecCancelled(vs[j].exec)
            && EndViews(vs, k, s)[j].next == None
            && EndViews(vs, k, s)[j2].exec == ExecCancelled(vs[j2].exec)
  {
    var j := vs[k].next.value;
    var j2 := vs[j].next.value;
    CancelCascade(vs, j);
    assert Reached(vs, j2, j2);
    assert Reached(vs, j, j2);
    EndFrame(vs, k, s);
  }

  // ===========================================================================
  // The error relay

  /** Node `m` is an ancestor of node `k`: the relay of `k` reaches it. */
  ghost predicate Ancestor<D>(vs: seq<NodeView<D>>, k: nat, m: nat)
    requires Linked(vs) && k < |vs|
    decreases k
  {
    vs[k].creator.Some? && (vs[k].creator.value == m || Ancestor(vs, vs[k].creator.value, m))
  }

  lemma {:induction false} AncestorIsEarlier<D>(vs: seq<NodeView<D>>, k: nat, m: nat)
    requires Linked(vs) && k < |vs| && Ancestor(vs, k, m)
    ensures m < k
    decreases k
  {
    var p := vs[k].creator.value;
    if m != p {
      AncestorIsEarlier(vs, p, m);
    }
  }

  /** Ancestry depends only on the relays. */
  lemma {:induction false} AncestorAgree<D>(vs: seq<NodeView<D>>, ws: seq<NodeView<D>>, k: nat, m: nat)
    requires Linked(vs) && Linked(ws) && |vs| == |ws| && k < |vs|
    requires forall i :: 0 <= i < |vs| ==> ws[i].creator == vs[i].creator
    ensures Ancestor(ws, k, m) <==> Ancestor(vs, k, m)
    decreases k
  {
    if vs[k].creator.Some? {
      AncestorAgree(vs, ws, vs[k].creator.value, m);
    }
  }

  /** What the relay does to one ancestor: it installs `h` when the ancestor
      has no error handler and keeps the one it has otherwise. */
  function InstallIfUnset<D>(e: ExecView<D>, h: nat): ExecView<D> {
    if ErrorSlot(e) == Unset then WithError(e, h) else e
  }

  /** The relay in closed form: every ancestor without an error handler
      receives `h`, every ancestor with one keeps it, and no other node
      changes; the walk goes all the way to the root. */
  lemma {:induction false} RelayClosedForm<D>(vs: seq<NodeView<D>>, k: nat, h: nat)
    requires Linked(vs) && k < |vs|
    ensures forall m :: 0 <= m < |vs| ==>
              RelayViews(vs, k, h)[m]
              == (if Ancestor(vs, k, m) then vs[m].(exec := InstallIfUnset(vs[m].exec, h)) else vs[m])
    decreases k
  {
    if vs[k].creator.Some? {
      var p := vs[k].creator.value;
      var ws := if ErrorSlot(vs[p].exec) == Unset then vs[p := vs[p].(exec := WithError(vs[p].exec, h))] else vs;
      LinkedUpdate(vs, p, ws[p]);
      RelayClosedForm(ws, p, h);
      forall m | 0 <= m < |vs|
        ensures Ancestor(ws, p, m) <==> Ancestor(vs, p, m)
        ensures Ancestor(vs, p, m) ==> m != p
      {
        AncestorAgree(vs, ws, p, m);
        if Ancestor(vs, p, m) {
          AncestorIsEarlier(vs, p, m);
        }
      }
    }
  }

  /** `error(h)` on node `k`: `k` takes `h` (replacing any handler it had),
      each ancestor without an error handler receives `h`, each one with a
      handler keeps it, and every other node is unchanged. */
  lemma ErrorClosedForm<D>(vs: seq<NodeView<D>>, k: nat, h: nat)
    requires Linked(vs) && k < |vs|
    ensures ErrorViews(vs, k, h)[k] == vs[k].(exec := WithError(vs[k].exec, h))
    ensures forall m :: 0 <= m < |vs| && m != k ==>
              ErrorViews(vs, k, h)[m]
              == (if Ancestor(vs, k, m) then vs[m].(exec := InstallIfUnset(vs[m].exec, h)) else vs[m])
    ensures forall m :: 0 <= m < |vs| && Ancestor(vs, k, m) && vs[m].exec != NoTask ==>
              ErrorSlot(ErrorViews(vs, k, h)[m].exec)
              == (if ErrorSlot(vs[m].exec) == Unset then Installed(h) else ErrorSlot(vs[m].exec))
  {
    var ws := vs[k := vs[k].(exec := WithError(vs[k].exec, h))];
    LinkedUpdate(vs, k, ws[k]);
    RelayClosedForm(ws, k, h);
    forall m | 0 <= m < |vs|
      ensures Ancestor(ws, k, m) <==> Ancestor(vs, k, m)
      ensures Ancestor(vs, k, m) ==> m != k
    {
      AncestorAgree(vs, ws, k, m);
      if Ancestor(vs, k, m) {
        AncestorIsEarlier(vs, k, m);
      }
    }
  }

  // ===========================================================================
  // Reports, handlers and new nodes

  /** The node's wrapper forwards at most once: after a report that reached
      the node, a second report of the node's unit only rewrites the unit's
      state and invokes its handler; the chain does not move again. */
  lemma ReportForwardsOnce<D>(vs: seq<NodeView<D>>, k: nat, s: State<D>, t: State<D>)
    requires Linked(vs) && k < |vs| && vs[k].exec.UnitState? && vs[k].exec.unit.hook.ChainOnce?
    ensures ReportViews(vs, k, s)[k].exec == UnitState(Ended(vs[k].exec.unit, s))
    ensures var r := ReportViews(vs, k, s);
            var u := r[k].exec.unit;
            ReportViews(r, k, t) == r[k := r[k].(exec := UnitState(Ended(u, t)))]
            && ReportLog(r, k, t) == EndCalls(u, t, Unset, Unset)
  {
    var u := vs[k].exec.unit;
    var ws := vs[k := vs[k].(exec := UnitState(Ended(u, s)))];
    LinkedUpdate(vs, k, ws[k]);
    if Fires(u.hook) {
      EndFrame(ws, k, s);
    }
  }

  /** A handler set by `complete(h)` is the one a `complete(r)` report
      invokes, with `r`; nothing else about the family changes. */
  lemma CompleteHandlerReceivesResult<D>(vs: seq<NodeView<D>>, k: nat, h: nat, r: Result<D>)
    requires Linked(vs) && k < |vs| && vs[k].exec.UnitState?
    ensures forall m :: 0 <= m < |vs| && m != k ==> CompleteViews(vs, k, h)[m] == vs[m]
    ensures CompleteViews(vs, k, h)[k].exec.unit == vs[k].exec.unit.(onComplete := Installed(h))
    ensures ReportLog(CompleteViews(vs, k, h), k, Complete(r))[..1] == [Called(h, r)]
  {
  }

  /** `task(job)` on a plain node replaces whatever executor it had by a new
      unit, starts it and submits `job` once. */
  lemma TaskRunsNewUnit<D>(vs: seq<NodeView<D>>, k: nat, job: nat)
    requires Linked(vs) && k < |vs| && !vs[k].exec.GroupState?
    ensures TaskViews(vs, k, job)[k].exec == UnitState(UnitView(job, Doing, Unset, Unset, ChainOnce(true)))
    ensures forall m :: 0 <= m < |vs| && m != k ==> TaskViews(vs, k, job)[m] == vs[m]
    ensures ExecStartLog(AddedTask(vs[k].exec, job)) == [Submitted(job)]
  {
  }

  /** `addTasks(jobs)`: an idle group gains one wired member per callable,
      in array order, and nothing else; a group that is not idle is
      unchanged. */
  lemma {:induction false} AddedAllAppends<D>(g: GroupView<D>, jobs: seq<nat>)
    ensures g.state.Idle? ==>
              AddedAll(g, jobs) == g.(members := g.members + seq(|jobs|, i requires 0 <= i < |jobs| => Wired(Created<D>(jobs[i]))))
    ensures !g.state.Idle? ==> AddedAll(g, jobs) == g
    decreases |jobs|
  {
    if jobs != [] {
      var init := jobs[..|jobs| - 1];
      AddedAllAppends(g, init);
      if g.state.Idle? {
        assert AddedAll(g, init).state.Idle?;
        var ws := seq(|jobs|, i requires 0 <= i < |jobs| => Wired(Created<D>(jobs[i])));
        var ws' := seq(|init|, i requires 0 <= i < |init| => Wired(Created<D>(init[i])));
        assert ws == ws' + [Wired(Created<D>(jobs[|jobs| - 1]))];
      }
    }
  }

  /** `next(job)` followed by a success of the node's unit starts the new
      node and submits `job`; followed by a failure it cancels the new node. */
  lemma NextRunsAfterOutcome<D>(vs: seq<NodeView<D>>, k: nat, job: nat, r: Result<D>)
    requires Linked(vs) && k < |vs| && vs[k].exec.UnitState? && vs[k].exec.unit.hook == ChainOnce(true)
    ensures var ws := AppendViews(vs, k, UnitState(Chained(job)));
            ReportViews(ws, k, Complete(r))[|vs|].exec == UnitState(Chained(job).(state := Doing))
            && ReportLog(ws, k, Complete(r)) == EndCalls(vs[k].exec.unit, Complete(r), Unset, Unset) + [Submitted(job)]
    ensures var ws := AppendViews(vs, k, UnitState(Chained(job)));
            ReportViews(ws, k, Error(r))[|vs|].exec == UnitState(Chained(job).(state := Cancel, hook := ChainOnce(false)))
            && ReportLog(ws, k, Error(r)) == EndCalls(vs[k].exec.unit, Error(r), Unset, Unset)
  {
    var ws := AppendViews(vs, k, UnitState(Chained(job)));
    var u := vs[k].exec.unit;
    var c1 := ws[k := ws[k].(exec := UnitState(Ended(u, Complete(r))))];
    LinkedUpdate(ws, k, c1[k]);
    EndDrivesSuccessor(c1, k, Complete(r));
    var e1 := ws[k := ws[k].(exec := UnitState(Ended(u, Error(r))))];
    LinkedUpdate(ws, k, e1[k]);
    EndDrivesSuccessor(e1, k, Error(r));
  }

  /** The join of a group node drives the chain: when the last running
      member of a disciplined, running group reports and the node's wrapper
      is armed, the group completes and the node's successor starts. */
  lemma JoinStartsSuccessor<D>(vs: seq<NodeView<D>>, k: nat, i: nat, s: State<D>)
    requires Linked(vs) && k < |vs| && vs[k].exec.GroupState? && vs[k].next.Some?
    requires var g := vs[k].exec.group;
             Disciplined(g) && g.state.Doing? && g.hook == ChainOnce(true) && i < |g.members|
             && g.members[i].state.Doing? && Finished(s)
             && forall m :: 0 <= m < |g.members| && m != i ==> Finished(g.members[m].state)
    ensures var j := vs[k].next.value;
            MemberReportViews(vs, k, i, s)[j] == vs[j].(exec := ExecStarted(vs[j].exec))
            && MemberReportViews(vs, k, i, s)[k].exec.group.state.CompleteAll?
            && MemberReportViews(vs, k, i, s)[k].next == None
  {
    var g := vs[k].exec.group;
    LastReportJoins(g, i, s);
    var ws := vs[k := vs[k].(exec := GroupState(MemberEnded(g, i, s)))];
    LinkedUpdate(vs, k, ws[k]);
    EndDrivesSuccessor(ws, k, MemberEnded(g, i, s).state);
  }

  // ===========================================================================
  // A chain of three

  /** The relay in a chain of three: `error(h)` on the last node puts `h`
      on every node that had no error handler. */
  lemma RelayOfThree<D>(vs: seq<NodeView<D>>, h: nat)
    requires |vs| == 3 && vs[0].creator == None && vs[1].creator == Some(0) && vs[2].creator == Some(1)
    requires Linked(vs) && forall m :: 0 <= m < 3 ==> vs[m].exec.UnitState? && vs[m].exec.unit.onError == Unset
    ensures ErrorViews(vs, 2, h)
            == [vs[0].(exec := WithError(vs[0].exec, h)), vs[1].(exec := WithError(vs[1].exec, h)),
                vs[2].(exec := WithError(vs[2].exec, h))]
  {
    var a := vs[0].(exec := WithError(vs[0].exec, h));
    var b := vs[1].(exec := WithError(vs[1].exec, h));
    var c := vs[2].(exec := WithError(vs[2].exec, h));
    assert RelayViews([vs[0], b, c], 1, h) == ErrorViews([vs[0], b, c], 0, h) == [a, b, c];
    assert RelayViews([vs[0], vs[1], c], 2, h) == ErrorViews([vs[0], vs[1], c], 1, h);
  }

  /** A failure at the head of a chain of three whose two successors are idle
      units with armed wrappers: the head's unit ends, the second is
      cancelled, its cancel ends it and cancels the third; every link is
      dropped, and only the head's own handler can be invoked. */
  lemma FailureOfThree<D>(ws: seq<NodeView<D>>, ua: UnitView<D>, ub: UnitView<D>, uc: UnitView<D>, r: Result<D>)
    requires ua.hook == ChainOnce(true) && ub.state.Idle? && ub.hook == ChainOnce(true)
    requires uc.state.Idle? && uc.hook == ChainOnce(true)
    requires ws == [NodeView(UnitState(ua), Some(1), None), NodeView(UnitState(ub), Some(2), Some(0)),
                    NodeView(UnitState(uc), None, Some(1))]
    ensures ReportLog(ws, 0, Error(r)) == EndCalls(ua, Error(r), Unset, Unset)
    ensures ReportViews(ws, 0, Error(r))
            == [NodeView(UnitState(ua.(state := Error(r), hook := ChainOnce(false))), None, None),
                NodeView(UnitState(ub.(state := Cancel, hook := ChainOnce(false))), None, Some(0)),
                NodeView(UnitState(uc.(state := Cancel, hook := ChainOnce(false))), None, Some(1))]
  {
    var a1 := ws[0].(exec := UnitState(Ended(ua, Error(r))));
    var w1 := [a1, ws[1], ws[2]];
    assert ws[0 := a1] == w1;
    assert ReportViews(ws, 0, Error(r)) == EndViews(w1, 0, Error(r));
    assert EndViews(w1, 0, Error(r)) == DropNext(CancelViews(w1, 1), 0);
    var b1 := ws[1].(exec := UnitState(Cancelled(ub)));
    assert w1[1 := b1] == [a1, b1, ws[2]];
    assert CancelViews(w1, 1) == EndViews([a1, b1, ws[2]], 1, State.Cancel);
    assert EndViews([a1, b1, ws[2]], 1, State.Cancel) == DropNext(CancelViews([a1, b1, ws[2]], 2), 1);
  }

  /** `a.next(b).next(c)` where only `c` registers an error handler `h`, and
      `a` fails with `r`: the relay has put `h` on `a`, so `h` receives `r`,
      and it is the only handler call of the whole failure; `b`, still idle,
      is cancelled, its cancel ends it, and that cancels `c` in turn. */
  lemma FailureReachesLastHandler<D>(vs: seq<NodeView<D>>, u: UnitView<D>, jobB: nat, jobC: nat, h: nat, r: Result<D>)
    requires u.state.Doing? && u.onComplete == Unset && u.onError == Unset && u.hook == ChainOnce(true)
    requires vs == [NodeView(UnitState(u), Some(1), None),
                    NodeView(UnitState(Chained(jobB)), Some(2), Some(0)),
                    NodeView(UnitState(Chained(jobC)), None, Some(1))]
    ensures var ws := ErrorViews(vs, 2, h);
            ws[0].exec == UnitState(u.(onError := Installed(h)))
            && ReportLog(ws, 0, Error(r)) == [Called(h, r)]
            && ReportViews(ws, 0, Error(r))
               == [NodeView(UnitState(u.(onError := Installed(h), state := Error(r), hook := ChainOnce(false))), None, None),
                   NodeView(UnitState(Chained(jobB).(onError := Installed(h), state := Cancel, hook := ChainOnce(false))), None, Some(0)),
                   NodeView(UnitState(Chained(jobC).(onError := Installed(h), state := Cancel, hook := ChainOnce(false))), None, Some(1))]
  {
    RelayOfThree(vs, h);
    FailureOfThree(ErrorViews(vs, 2, h), u.(onError := Installed(h)), Chained<D>(jobB).(onError := Installed(h)),
                   Chained<D>(jobC).(onError := Installed(h)), r);
  }
}
