/** What becomes of every start and close call, over all interleavings. */
module LifecycleTheorems {
  import opened Optional
  import opened ServiceLifecycle

  /** A reachable state and the step it takes. */
  lemma StepAt(run: seq<World>, i: nat)
    requires IsWorldRun(run) && i + 1 < |run|
    ensures WorldOk(run[i]) && WorldNext(run[i], run[i + 1])
  {
    WorldOkAt(run, i);
  }

  lemma LastStep(run: seq<World>) returns (before: seq<World>, w: World, w': World)
    requires IsWorldRun(run) && |run| > 1
    ensures before == run[..|run| - 1] && IsWorldRun(before) && w == before[|before| - 1] && w' == run[|run| - 1]
    ensures WorldOk(w) && WorldNext(w, w')
  {
    before, w, w' := run[..|run| - 1], run[|run| - 2], run[|run| - 1];
    WorldRunOk(before);
  }

  lemma WorldOkAt(run: seq<World>, i: nat)
    requires IsWorldRun(run) && i < |run|
    ensures WorldOk(run[i])
  {
    assert IsWorldRun(run[..i + 1]);
    WorldRunOk(run[..i + 1]);
  }

  /** A call that was there moves only by its own step. */
  lemma WhoMoved(w: World, w': World, id: nat) returns (ok: bool)
    requires WorldNext(w, w') && id in w.calls && id in w'.calls && w'.calls[id] != w.calls[id]
    ensures Enabled(w, id) && w' == CallStep(w, id, ok)
  {
    if who, result :| Enabled(w, who) && w' == CallStep(w, who, result) {
      if who != id { StepMovesOne(w, who, result, id); }
      ok := result;
    }
  }

  lemma StepMovesOne(w: World, id: nat, ok: bool, other: nat)
    requires Enabled(w, id) && other != id
    ensures (other in CallStep(w, id, ok).calls <==> other in w.calls) && (other in w.calls ==> CallStep(w, id, ok).calls[other] == w.calls[other])
  {
  }

  // ----- interrupted starts -----

  predicate Entering(pc: Pc) { pc.StartEntry? || pc.CloseEntry? }

  predicate Queued(pc: Pc) { pc.StartAcquire? || pc.CloseAcquire? }

  /** The start of `n` by `k` will not be published: it is interrupted and still runs, or is being closed, or is over. */
  ghost predicate Doomed(w: World, k: nat, n: nat) {
    && k in w.calls && k !in w.publishers && n < |w.closes|
    && (|| (w.owner == Some(k) && RunningInstance(w) == Some(n) && w.service.interrupted)
        || (w.owner == Some(k) && w.calls[k] == StartDiscard(n))
        || (w.calls[k] == Done && !Live(w, n)))
  }

  lemma EntryInterrupts(w: World, w': World, id: nat, k: nat, n: nat)
    requires WorldOk(w) && WorldNext(w, w') && id in w.calls && Entering(w.calls[id]) && id in w'.calls && Queued(w'.calls[id])
    requires w.service.status.Starting? && w.service.instance == Some(n) && w.owner == Some(k)
    ensures Doomed(w', k, n)
  {
    var ok := WhoMoved(w, w', id);
    EntryDooms(w, id, ok, k, n);
  }

  lemma EntryDooms(w: World, id: nat, ok: bool, k: nat, n: nat)
    requires WorldOk(w) && Enabled(w, id) && Entering(w.calls[id])
    requires w.service.status.Starting? && w.service.instance == Some(n) && w.owner == Some(k)
    ensures Doomed(CallStep(w, id, ok), k, n)
  {
    assert RunningInstance(w) == Some(n) && k != id;
    assert w.calls[k] != Done && k !in w.publishers;
  }

  /** An instance that is closed for good is never current or held again. */
  lemma StaysDead(w: World, id: nat, ok: bool, n: nat)
    requires WorldOk(w) && Enabled(w, id) && n < |w.closes| && !Live(w, n)
    ensures !Live(CallStep(w, id, ok), n)
  {
    var w' := CallStep(w, id, ok);
    CallStepLocks(w, id, ok);
    assert w.owner.Some? && w.owner.value != id ==> Held(w') == Held(w);
  }

  lemma OwnStepDoomed(w: World, k: nat, n: nat, ok: bool)
    requires WorldOk(w) && Doomed(w, k, n) && Enabled(w, k)
    ensures Doomed(CallStep(w, k, ok), k, n)
  {
  }

  lemma OtherStepDoomed(w: World, k: nat, n: nat, id: nat, ok: bool)
    requires WorldOk(w) && Doomed(w, k, n) && Enabled(w, id) && id != k
    ensures Doomed(CallStep(w, id, ok), k, n)
  {
    var w' := CallStep(w, id, ok);
    assert w'.calls[k] == w.calls[k];
    if w.calls[k] == Done { StaysDead(w, id, ok, n); } else { assert w'.owner == w.owner && !Inside(w.calls[id]); }
  }

  lemma NextDoomed(w: World, w': World, k: nat, n: nat)
    requires WorldOk(w) && Doomed(w, k, n) && WorldNext(w, w')
    ensures Doomed(w', k, n)
  {
    if id, ok :| Enabled(w, id) && w' == CallStep(w, id, ok) {
      if id == k { OwnStepDoomed(w, k, n, ok); } else { OtherStepDoomed(w, k, n, id, ok); }
    } else {
      assert Held(w') == Held(w) && RunningInstance(w') == RunningInstance(w);
    }
  }

  lemma {:induction false} StaysDoomed(run: seq<World>, i: nat, k: nat, n: nat)
    requires IsWorldRun(run) && i < |run| && Doomed(run[i], k, n)
    ensures Doomed(run[|run| - 1], k, n)
  {
    if i < |run| - 1 {
      var before, w, w' := LastStep(run);
      StaysDoomed(before, i, k, n);
      NextDoomed(w, w', k, n);
    }
  }

  lemma DoomedMeans(w: World, k: nat, n: nat)
    requires WorldOk(w) && Doomed(w, k, n)
    ensures k !in w.publishers && k in w.calls && n < |w.closes| && (w.calls[k] == Done ==> w.closes[n] == 1)
  {
    assert w.calls[k] == Done ==> w.owner != Some(k);
  }

  /** A start or close call that enters while an instance is starting interrupts that start: it is never published,
      and once it has returned its instance has been closed, once. */
  lemma EnteringCallsInterrupt(run: seq<World>, i: nat, id: nat, k: nat, n: nat)
    requires IsWorldRun(run) && i + 1 < |run|
    requires id in run[i].calls && Entering(run[i].calls[id]) && id in run[i + 1].calls && Queued(run[i + 1].calls[id])
    requires run[i].service.status.Starting? && run[i].service.instance == Some(n) && run[i].owner == Some(k)
    ensures var w := run[|run| - 1];
            k !in w.publishers && k in w.calls && n < |w.closes| && (w.calls[k] == Done ==> w.closes[n] == 1)
  {
    StepAt(run, i);
    EntryInterrupts(run[i], run[i + 1], id, k, n);
    StaysDoomed(run, i + 1, k, n);
    WorldRunOk(run);
    DoomedMeans(run[|run| - 1], k, n);
  }

  // ----- statuses -----

  /** The status while a call is at work; an error may be reported at any time. */
  ghost predicate StatusOk(w: World) {
    var status := w.service.status;
    if w.owner.None? || w.owner.value !in w.calls then !status.Stopping?
    else
      match w.calls[w.owner.value]
      case StartPrepare => !status.Stopping?
      case ClosePrepare => !status.Stopping?
      case StartCloseOld(_) => status.Stopping? || status.Fatal?
      case StartBegin => status.Stopping? || status.Fatal?
      case CloseInstance(_) => status.Stopping? || status.Fatal?
      case CloseEnd => status.Stopping? || status.Fatal?
      case _ => status.Starting? || status.Fatal?
  }

  lemma CallStepStatus(w: World, id: nat, ok: bool)
    requires WorldOk(w) && StatusOk(w) && Enabled(w, id)
    ensures StatusOk(CallStep(w, id, ok))
  {
  }

  // ----- how calls end -----

  predicate Starts(pc: Pc) { pc != Done && !IsClose(pc) }

  /** The start was refused, was published, failed, or was interrupted. */
  ghost predicate StartOutcome(w: World, w': World, id: nat) {
    || (w.service.closed && w'.service == w.service && w'.closes == w.closes && id !in w'.publishers)
    || (id in w'.publishers && w'.service.status.Started? && w'.service.instance.Some? && !w'.service.interrupted)
    || (id !in w'.publishers && w'.service.status.Fatal? && w'.service.instance.None?)
    || (id !in w'.publishers && w'.service.instance.None? && id in w'.cancelled)
  }

  /** A discarded start failed or was interrupted. */
  ghost predicate DiscardsOk(w: World) {
    forall id | id in w.calls && w.calls[id].StartDiscard? :: w.service.status.Fatal? || id in w.cancelled
  }

  /** The mark is on only while an instance is starting, and then an interruption reached that start. */
  ghost predicate MarksOk(w: World) {
    w.service.interrupted ==> RunningInstance(w).Some? && w.owner.value in w.cancelled
  }

  ghost predicate EndsOk(w: World) { StatusOk(w) && DiscardsOk(w) && MarksOk(w) }

  lemma CallStepEnds(w: World, id: nat, ok: bool)
    requires WorldOk(w) && EndsOk(w) && Enabled(w, id)
    ensures EndsOk(CallStep(w, id, ok))
  {
    CallStepStatus(w, id, ok);
    CallStepDiscards(w, id, ok);
    CallStepMarks(w, id, ok);
  }

  lemma CallStepDiscards(w: World, id: nat, ok: bool)
    requires WorldOk(w) && EndsOk(w) && Enabled(w, id)
    ensures DiscardsOk(CallStep(w, id, ok))
  {
  }

  lemma CallStepMarks(w: World, id: nat, ok: bool)
    requires WorldOk(w) && EndsOk(w) && Enabled(w, id)
    ensures MarksOk(CallStep(w, id, ok))
  {
  }

  lemma NextEnds(w: World, w': World)
    requires WorldOk(w) && EndsOk(w) && WorldNext(w, w')
    ensures EndsOk(w')
  {
    if id, ok :| Enabled(w, id) && w' == CallStep(w, id, ok) { CallStepEnds(w, id, ok); }
  }

  lemma {:induction false} RunEnds(run: seq<World>)
    requires IsWorldRun(run)
    ensures EndsOk(run[|run| - 1])
  {
    if |run| > 1 {
      var before, w, w' := LastStep(run);
      RunEnds(before);
      NextEnds(w, w');
    }
  }

  lemma StartStepEnds(w: World, id: nat, ok: bool)
    requires WorldOk(w) && EndsOk(w) && Enabled(w, id) && Starts(w.calls[id]) && CallStep(w, id, ok).calls[id] == Done
    ensures StartOutcome(w, CallStep(w, id, ok), id)
  {
    assert w.owner == Some(id) && id !in w.publishers;
  }

  /** A start call returns refused by a closed service and without effect, or published, or with an error and nothing
      current, or interrupted and nothing current. */
  lemma StartsEndWell(run: seq<World>, i: nat, id: nat)
    requires IsWorldRun(run) && i + 1 < |run|
    requires id in run[i].calls && Starts(run[i].calls[id]) && id in run[i + 1].calls && run[i + 1].calls[id] == Done
    ensures StartOutcome(run[i], run[i + 1], id)
  {
    StepAt(run, i);
    assert IsWorldRun(run[..i + 1]);
    RunEnds(run[..i + 1]);
    var ok := WhoMoved(run[i], run[i + 1], id);
    StartStepEnds(run[i], id, ok);
  }

  lemma CloseStepEnds(w: World, id: nat, ok: bool)
    requires WorldOk(w) && StatusOk(w) && Enabled(w, id) && IsClose(w.calls[id]) && CallStep(w, id, ok).calls[id] == Done
    ensures var s := CallStep(w, id, ok).service; s.instance.None? && (s.status.Idle? || s.status.Fatal?)
  {
    assert w.owner == Some(id);
  }

  /** A close call returns with nothing current, and the service idle or in error. */
  lemma ClosesEndWell(run: seq<World>, i: nat, id: nat)
    requires IsWorldRun(run) && i + 1 < |run|
    requires id in run[i].calls && IsClose(run[i].calls[id]) && id in run[i + 1].calls && run[i + 1].calls[id] == Done
    ensures var s := run[i + 1].service; s.instance.None? && (s.status.Idle? || s.status.Fatal?)
  {
    StepAt(run, i);
    assert IsWorldRun(run[..i + 1]);
    RunEnds(run[..i + 1]);
    var ok := WhoMoved(run[i], run[i + 1], id);
    CloseStepEnds(run[i], id, ok);
  }

  /** A close call that finds no instance, and no start, returns at once and changes nothing; any other closes. */
  lemma NothingToCloseIsKept(run: seq<World>, i: nat, id: nat)
    requires IsWorldRun(run) && i + 1 < |run|
    requires id in run[i].calls && run[i].calls[id] == ClosePrepare && id in run[i + 1].calls && run[i + 1].calls[id] != ClosePrepare
    ensures var s, s' := run[i].service, run[i + 1].service;
            if s.instance.None? && !s.status.Starting? then run[i + 1].calls[id] == Done && s' == s
            else run[i + 1].calls[id] == CloseInstance(s.instance) && s'.instance.None? && s'.status.Stopping?
  {
    StepAt(run, i);
    var ok := WhoMoved(run[i], run[i + 1], id);
  }

  /** No deadlock: while some call has not returned, some call can move. */
  lemma SomeCallMoves(run: seq<World>, id: nat) returns (who: nat)
    requires IsWorldRun(run) && id in run[|run| - 1].calls && run[|run| - 1].calls[id] != Done
    ensures Enabled(run[|run| - 1], who)
  {
    WorldRunOk(run);
    var w := run[|run| - 1];
    who := if w.owner.Some? then w.owner.value else id;
  }

  // ----- a closed service -----

  /** Closed, and no start is past its first section. */
  ghost predicate Shut(w: World) {
    w.service.closed && (w.owner.Some? && w.owner.value in w.calls ==> IsClose(w.calls[w.owner.value]) || w.calls[w.owner.value].StartPrepare?)
  }

  lemma StepShut(w: World, id: nat, ok: bool)
    requires WorldOk(w) && Shut(w) && Enabled(w, id)
    ensures var w' := CallStep(w, id, ok); Shut(w') && |w'.closes| == |w.closes| && w'.publishers == w.publishers
  {
    assert Inside(w.calls[id]) ==> w.owner == Some(id);
  }

  lemma NextShut(w: World, w': World)
    requires WorldOk(w) && Shut(w) && WorldNext(w, w')
    ensures Shut(w') && |w'.closes| == |w.closes| && w'.publishers == w.publishers
  {
    if id, ok :| Enabled(w, id) && w' == CallStep(w, id, ok) { StepShut(w, id, ok); }
  }

  /** Once the service is closed and no start is at work, nothing is created and nothing published any more. */
  lemma {:induction false} ClosedServiceStartsNothing(run: seq<World>, i: nat)
    requires IsWorldRun(run) && i < |run| && Shut(run[i])
    ensures var w, w' := run[i], run[|run| - 1]; Shut(w') && |w'.closes| == |w.closes| && w'.publishers == w.publishers
  {
    if i < |run| - 1 {
      var before, w, w' := LastStep(run);
      ClosedServiceStartsNothing(before, i);
      NextShut(w, w');
    }
  }

  lemma OneMoreStep(run: seq<World>, id: nat, ok: bool) returns (longer: seq<World>)
    requires IsWorldRun(run) && Enabled(run[|run| - 1], id)
    ensures IsWorldRun(longer) && longer[|longer| - 1] == CallStep(run[|run| - 1], id, ok)
  {
    longer := run + [CallStep(run[|run| - 1], id, ok)];
    forall i | 0 <= i < |longer| - 1 ensures WorldNext(longer[i], longer[i + 1]) {
      if i < |run| - 1 { assert WorldNext(run[i], run[i + 1]); }
    }
  }

  lemma FreshCall() returns (run: seq<World>)
    ensures IsWorldRun(run) && run[|run| - 1] == World(Service(Idle, None, false, false), None, map[0 := StartEntry], [], {}, {})
  {
    run := [FRESH, At(FRESH, 0, StartEntry)];
  }

  /** A fresh service can be started: a run in which the first start is published. */
  lemma FreshServiceStarts() returns (run: seq<World>)
    ensures IsWorldRun(run)
    ensures run[|run| - 1] == World(Service(Started, Some(0), false, false), None, map[0 := Done], [0], {}, {0})
  {
    run := FreshCall();
    run := OneMoreStep(run, 0, true);
    run := OneMoreStep(run, 0, true);
    run := OneMoreStep(run, 0, true);
    run := OneMoreStep(run, 0, true);
    assert run[|run| - 1] == World(Service(Starting, None, false, false), Some(0), map[0 := StartInstall(0)], [0], {}, {});
    run := OneMoreStep(run, 0, true);
    run := OneMoreStep(run, 0, true);
    run := OneMoreStep(run, 0, true);
  }
}
