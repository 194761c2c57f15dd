/** What the executors promise, stated over the pure view functions that
    specify their methods. */
module ExecutorLaws {
  import opened Outcomes
  import opened Executors

  // ===========================================================================
  // Unit

  /** `start` acts only from `idle`: it moves to `doing` and submits the
      callable once; from any other state it changes nothing and submits
      nothing, so a second `start` is a no-op. */
  lemma StartActsOnlyFromIdle<D>(v: UnitView<D>)
    ensures v.state.Idle? ==> Started(v).state == Doing && StartLog(v) == [Submitted(v.job)]
    ensures !v.state.Idle? ==> Started(v) == v && StartLog(v) == []
    ensures Started(v).onComplete == v.onComplete && Started(v).onError == v.onError && Started(v).hook == v.hook
    ensures Started(Started(v)) == Started(v) && StartLog(Started(v)) == []
  {
  }

  /** `cancel` acts only from `idle`: it sets `cancel` and reaches the owner
      when the `endAction` forwards; a running or ended unit is left alone
      and nothing fires. */
  lemma CancelActsOnlyFromIdle<D>(v: UnitView<D>)
    ensures v.state.Idle? ==> Cancelled(v).state == Cancel && (CancelForwards(v) <==> Fires(v.hook))
    ensures !v.state.Idle? ==> Cancelled(v) == v && !CancelForwards(v)
    ensures Cancelled(v).onComplete == v.onComplete && Cancelled(v).onError == v.onError
  {
  }

  /** `end(s)` writes `s` whatever the state was (an ended unit can be ended
      again), invokes the complete handler only for `complete(r)` and the
      error handler only for `error(r)`, each with `r`, and always calls the
      `endAction`. */
  lemma EndWritesAndDispatches<D>(v: UnitView<D>, s: State<D>, viaComplete: Handler, viaError: Handler)
    ensures Ended(v, s).state == s
    ensures Ended(v, s).onComplete == v.onComplete && Ended(v, s).onError == v.onError
    ensures |EndCalls(v, s, viaComplete, viaError)| <= 1
    ensures s.Complete? && v.onComplete.Installed? ==> EndCalls(v, s, viaComplete, viaError) == [Called(v.onComplete.id, s.result)]
    ensures s.Error? && v.onError.Installed? ==> EndCalls(v, s, viaComplete, viaError) == [Called(v.onError.id, s.result)]
    ensures !s.Complete? && !s.Error? ==> EndCalls(v, s, viaComplete, viaError) == []
    ensures v.onComplete.Unset? && v.onError.Unset? ==> EndCalls(v, s, viaComplete, viaError) == []
  {
  }

  /** The chain wrapper forwards at most once: whatever the unit does after
      its `endAction` forwarded, the wrapper never forwards again. */
  lemma WrapperForwardsAtMostOnce<D>(v: UnitView<D>, s: State<D>, t: State<D>)
    requires v.hook.ChainOnce?
    ensures !Fires(Ended(v, s).hook)
    ensures !Fires(Ended(Ended(v, s), t).hook) && !CancelForwards(Ended(v, s))
    ensures v.state.Idle? ==> !Fires(Cancelled(v).hook)
  {
  }

  // ===========================================================================
  // Group membership and counting

  /** A member as `add` leaves it: both handlers forward to the group and
      its `endAction` counts. */
  predicate IsWired<D>(v: UnitView<D>) {
    v.onComplete == ToGroup && v.onError == ToGroup && v.hook == Counted
  }

  /** A unit that has ended, one way or another. */
  predicate Finished<D>(s: State<D>) {
    !s.Idle? && !s.Doing?
  }

  /** A member whose result the join collects. */
  predicate Settled<D>(v: UnitView<D>) {
    v.state.Complete? || v.state.Error?
  }

  /** How many of the first `n` members have ended. */
  function FinishedCount<D>(vs: seq<UnitView<D>>, n: nat): (c: nat)
    requires n <= |vs|
    ensures c <= n
  {
    if n == 0 then 0 else FinishedCount(vs, n - 1) + (if Finished(vs[n - 1].state) then 1 else 0)
  }

  /** A group in which every member is wired and the counter holds the
      number of members that have ended: what holds when each member's
      callable calls `end` once, with a terminal state, after the member
      was started. */
  predicate Disciplined<D>(g: GroupView<D>) {
    (forall k :: 0 <= k < |g.members| ==> IsWired(g.members[k]))
    && g.endCount == FinishedCount(g.members, |g.members|)
  }

  lemma {:induction false} FinishedCountAll<D>(vs: seq<UnitView<D>>, n: nat)
    requires n <= |vs|
    ensures FinishedCount(vs, n) == n <==> forall k :: 0 <= k < n ==> Finished(vs[k].state)
  {
    if n > 0 {
      FinishedCountAll(vs, n - 1);
    }
  }

  lemma {:induction false} FinishedCountUpdate<D>(vs: seq<UnitView<D>>, i: nat, v: UnitView<D>, n: nat)
    requires i < |vs| && n <= |vs|
    ensures FinishedCount(vs[i := v], n)
            == FinishedCount(vs, n) + (if i < n && !Finished(vs[i].state) && Finished(v.state) then 1 else 0)
                                    - (if i < n && Finished(vs[i].state) && !Finished(v.state) then 1 else 0)
  {
    if n > 0 {
      FinishedCountUpdate(vs, i, v, n - 1);
    }
  }

  lemma {:induction false} FinishedCountPrefix<D>(vs: seq<UnitView<D>>, ws: seq<UnitView<D>>, n: nat)
    requires n <= |vs| && n <= |ws| && vs[..n] == ws[..n]
    ensures FinishedCount(vs, n) == FinishedCount(ws, n)
  {
    if n > 0 {
      assert vs[n - 1] == vs[..n][n - 1] == ws[..n][n - 1] == ws[n - 1];
      assert vs[..n - 1] == vs[..n][..n - 1] == ws[..n][..n - 1] == ws[..n - 1];
      FinishedCountPrefix(vs, ws, n - 1);
    }
  }

  lemma {:induction false} FinishedCountStarted<D>(vs: seq<UnitView<D>>, n: nat)
    requires n <= |vs|
    ensures FinishedCount(StartedAll(vs), n) == FinishedCount(vs, n)
  {
    if n > 0 {
      FinishedCountStarted(vs, n - 1);
    }
  }

  lemma {:induction false} FinishedCountCancelled<D>(vs: seq<UnitView<D>>, n: nat)
    requires n <= |vs|
    requires forall k :: 0 <= k < |vs| ==> IsWired(vs[k])
    ensures FinishedCount(CancelledAll(vs), n) == FinishedCount(vs, n) + CancelCount(vs, n)
  {
    if n > 0 {
      FinishedCountCancelled(vs, n - 1);
    }
  }

  /** `add` appends the member, wired, at the end of the list while the group
      is idle, and leaves the group unchanged otherwise; a new (idle) unit
      keeps the group disciplined. */
  lemma AddKeepsDiscipline<D>(g: GroupView<D>, u: UnitView<D>)
    requires Disciplined(g) && u.state.Idle?
    ensures g.state.Idle? ==> Added(g, u).members == g.members + [Wired(u)]
    ensures !g.state.Idle? ==> Added(g, u) == g
    ensures Added(g, u).state == g.state && Added(g, u).endCount == g.endCount
    ensures Disciplined(Added(g, u))
  {
    var ws := g.members + [Wired(u)];
    assert ws[..|g.members|] == g.members[..|g.members|];
    FinishedCountPrefix(ws, g.members, |g.members|);
  }

  /** `start` moves an idle group to `doing`, keeps any other state, starts
      every member and keeps the group disciplined; afterwards no member of
      a group that was idle is still idle. */
  lemma StartKeepsDiscipline<D>(g: GroupView<D>)
    requires Disciplined(g)
    ensures GroupStarted(g).state == (if g.state.Idle? then Doing else g.state)
    ensures forall k :: 0 <= k < |g.members| ==> !GroupStarted(g).members[k].state.Idle?
    ensures Disciplined(GroupStarted(g))
  {
    FinishedCountStarted(g.members, |g.members|);
  }

  /** `cancel` sets `cancel` whatever the state was, cancels every idle
      member, counts each of them, and keeps the group disciplined; the
      group's own `endAction` is untouched. */
  lemma CancelKeepsDiscipline<D>(g: GroupView<D>)
    requires Disciplined(g)
    ensures GroupCancelled(g).state == Cancel && GroupCancelled(g).hook == g.hook
    ensures forall k :: 0 <= k < |g.members| ==>
              GroupCancelled(g).members[k].state == (if g.members[k].state.Idle? then Cancel else g.members[k].state)
    ensures Disciplined(GroupCancelled(g))
  {
    FinishedCountCancelled(g.members, |g.members|);
  }

  // ===========================================================================
  // The join

  /** The results the join collects are exactly one per member, in member
      order, when and only when every member settled with `complete` or
      `error`. */
  lemma {:induction false} CollectAllSettled<D>(vs: seq<UnitView<D>>)
    ensures |Collect(vs)| <= |vs|
    ensures |Collect(vs)| == |vs| <==> forall k :: 0 <= k < |vs| ==> Settled(vs[k])
    ensures (forall k :: 0 <= k < |vs| ==> Settled(vs[k])) ==>
              forall k :: 0 <= k < |vs| ==> Collect(vs)[k] == vs[k].state.result
  {
    if vs != [] {
      var init := vs[..|vs| - 1];
      CollectAllSettled(init);
      assert forall k :: 0 <= k < |init| ==> init[k] == vs[k];
    }
  }

  /** A member's outcome as the group's own handlers see it: its result,
      forwarded to the group's complete or error handler. */
  function Relayed<D>(g: GroupView<D>, s: State<D>): seq<Event<D>> {
    match s
    case Complete(r) => Invoke(g.onComplete, Unset, r)
    case Error(r) => Invoke(g.onError, Unset, r)
    case _ => []
  }

  /** A running member's report in a disciplined, running group: the group
      stays disciplined; its handler receives the member's result; the join
      fires exactly when this was the last member still running, and then
      the group is `completeAll` of the collected results, its complete
      handler receives the composite result after the member's own, and its
      `endAction` forwards if armed.  Otherwise the group keeps running. */
  lemma LastReportJoins<D>(g: GroupView<D>, i: nat, s: State<D>)
    requires Disciplined(g) && g.state.Doing? && i < |g.members|
    requires g.members[i].state.Doing? && Finished(s)
    ensures Disciplined(MemberEnded(g, i, s))
    ensures MemberEnded(g, i, s).members == g.members[i := Ended(g.members[i], s)]
    ensures MemberEnded(g, i, s).state.CompleteAll?
            <==> forall k :: 0 <= k < |g.members| && k != i ==> Finished(g.members[k].state)
    ensures !MemberEnded(g, i, s).state.CompleteAll? ==> MemberEnded(g, i, s).state == Doing
    ensures MemberEnded(g, i, s).state.CompleteAll? ==>
              MemberEnded(g, i, s).state.all == Collect(MemberEnded(g, i, s).members)
    ensures MemberEndCalls(g, i, s)
            == Relayed(g, s) + (if MemberEnded(g, i, s).state.CompleteAll?
                                then Invoke(g.onComplete, Unset, Outcomes.Joined(MemberEnded(g, i, s).state.all))
                                else [])
    ensures MemberEndForwards(g, i, s) <==> MemberEnded(g, i, s).state.CompleteAll? && Fires(g.hook)
  {
    var ms := g.members[i := Ended(g.members[i], s)];
    FinishedCountUpdate(g.members, i, Ended(g.members[i], s), |g.members|);
    FinishedCountAll(ms, |ms|);
    assert IsWired(g.members[i]);
    if forall k :: 0 <= k < |g.members| && k != i ==> Finished(g.members[k].state) {
      assert forall k :: 0 <= k < |ms| ==> Finished(ms[k].state);
    } else {
      var k :| 0 <= k < |g.members| && k != i && !Finished(g.members[k].state);
      assert !Finished(ms[k].state);
    }
  }

  /** After the join (or a cancel) further reports change nothing but the
      reporting member and the counter: the join fires at most once. */
  lemma JoinAtMostOnce<D>(g: GroupView<D>, i: nat, s: State<D>)
    requires !g.state.Doing? && i < |g.members|
    ensures MemberEnded(g, i, s).state == g.state
    ensures MemberEnded(g, i, s).hook == g.hook
    ensures !MemberEndForwards(g, i, s)
    ensures MemberEndCalls(g, i, s) == EndCalls(g.members[i], s, g.onComplete, g.onError)
  {
  }

  /** A group with no members that is started stays `doing`: no member can
      report, so nothing ever runs the join check. */
  lemma EmptyGroupStalls<D>()
    ensures GroupStarted(Empty<D>()).state == Doing && GroupStarted(Empty<D>()).members == []
    ensures StartLogs(Empty<D>().members, 0) == []
  {
  }
}
