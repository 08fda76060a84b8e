/** The daemon's service lifecycle under its two locks.  Each critical section of the service lock
    is one step; a start or close call holds the lifecycle lock from `Acquire` until it returns.
    Any number of calls run concurrently. */
module ServiceLifecycle {
  import opened Optional

  datatype Status = Idle | Starting | Started | Stopping | Fatal

  /** The fields the service lock protects. */
  datatype Service = Service(status: Status, instance: Option<nat>, interrupted: bool, closed: bool)

  // ----- critical sections -----

  predicate CanInterrupt(s: Service) { s.status.Starting? && s.instance.Some? }

  function Interrupt(s: Service): Service {
    if CanInterrupt(s) then s.(interrupted := true) else s
  }

  /** Takes the old instance away; without one the start begins at once. */
  function TakeOld(s: Service): Service
    requires s.instance.Some?
  {
    s.(instance := None, status := Stopping)
  }

  function BeginStart(s: Service): Service { s.(interrupted := false, status := Starting) }

  function Fail(s: Service): Service { s.(status := Fatal) }

  function Install(s: Service, n: nat): Service { s.(instance := Some(n)) }

  /** The last section of a start: interrupted, failed, or published. */
  function EndStart(s: Service, ok: bool): Service {
    if s.interrupted then s.(interrupted := false, instance := None)
    else if !ok then s.(instance := None, status := Fatal)
    else s.(status := Started)
  }

  predicate NothingToClose(s: Service) { s.instance.None? && !s.status.Starting? && !s.status.Started? }

  function BeginClose(s: Service): Service { s.(instance := None, status := Stopping) }

  function EndClose(s: Service): Service { s.(status := Idle) }

  // ----- one call under the lifecycle lock -----

  /** What others can do to the service while a call holds the lifecycle lock. */
  datatype Outside = Interrupting | Failing | Closing

  function Suffer(s: Service, e: Outside): Service {
    match e
    case Interrupting => Interrupt(s)
    case Failing => Fail(s)
    case Closing => s.(closed := true)
  }

  function SufferAll(s: Service, events: seq<Outside>): Service {
    if events == [] then s else Suffer(SufferAll(s, events[..|events| - 1]), events[|events| - 1])
  }

  /** An interruption comes before any reported error. */
  predicate Interrupts(events: seq<Outside>) {
    exists k | 0 <= k < |events| :: events[k].Interrupting? && Failing !in events[..k]
  }

  lemma OneMoreEvent(rest: seq<Outside>, e: Outside)
    ensures Interrupts(rest + [e]) <==> Interrupts(rest) || (e.Interrupting? && Failing !in rest)
    ensures (Failing in rest + [e] <==> Failing in rest || e.Failing?) && (Closing in rest + [e] <==> Closing in rest || e.Closing?)
  {
    var events, n := rest + [e], |rest|;
    assert events[..n] == rest && forall k | 0 <= k <= n :: rest[..k] == events[..k];
    forall k | 0 <= k < n && rest[k].Interrupting? && Failing !in rest[..k] ensures Interrupts(events) {
      assert events[k].Interrupting? && Failing !in events[..k];
    }
    forall k | 0 <= k < n && events[k].Interrupting? && Failing !in events[..k] ensures Interrupts(rest) {
      assert rest[k].Interrupting? && Failing !in rest[..k];
    }
    assert e.Interrupting? && Failing !in rest ==> events[n].Interrupting? && Failing !in events[..n];
  }

  /** Others never touch the instance, only end a start that is still starting, and reach a start exactly
      with an interruption that no reported error precedes. */
  lemma {:induction false} InterruptionReachesIff(s: Service, events: seq<Outside>)
    requires !s.interrupted
    ensures var s' := SufferAll(s, events);
            && s'.instance == s.instance
            && s'.status == (if Failing in events then Fatal else s.status)
            && s'.closed == (s.closed || Closing in events)
            && (s'.interrupted <==> CanInterrupt(s) && Interrupts(events))
  {
    if events != [] {
      var rest, e := events[..|events| - 1], events[|events| - 1];
      assert events == rest + [e];
      InterruptionReachesIff(s, rest);
      OneMoreEvent(rest, e);
      assert SufferAll(s, events) == Suffer(SufferAll(s, rest), e);
    }
  }

  function Bag(n: Option<nat>): multiset<nat> { if n.Some? then multiset{n.value} else multiset{} }

  /** The service object. */
  class StartedService {
    var status: Status
    var instance: Option<nat>
    var interrupted: bool
    var closed: bool

    function Value(): Service
      reads this
    {
      Service(status, instance, interrupted, closed)
    }

    ghost predicate Valid()
      reads this
    {
      status.Started? ==> instance.Some?
    }

    constructor ()
      ensures Valid() && Value() == Service(Idle, None, false, false)
    {
      status, instance, interrupted, closed := Idle, None, false, false;
    }

    method InterruptStart()
      modifies this`interrupted
      ensures Value() == Interrupt(old(Value()))
    {
      if status.Starting? && instance.Some? {
        interrupted := true;
      }
    }

    /** The service lock is free: others have their way. */
    method Unlocked(events: seq<Outside>)
      requires !status.Started?
      modifies this
      ensures Value() == SufferAll(old(Value()), events) && !status.Started?
    {
      for i := 0 to |events|
        invariant Value() == SufferAll(old(Value()), events[..i]) && !status.Started?
      {
        assert events[..i + 1][..i] == events[..i];
        match events[i] {
          case Interrupting => InterruptStart();
          case Failing => status := Fatal;
          case Closing => closed := true;
        }
      }
      assert events[..|events|] == events;
    }

    /** A start or reload.  `created` is the new instance if creating it succeeds, `runs` whether it starts.
        `events` is what others do while the old instance closes, while the new one is created, and
        while it starts.  No instance is lost: the old and the new one are the current one, or closed here.
        The new one is published exactly if it starts and no interruption reached it first.  A start that fails
        leaves the error status, and one that is interrupted leaves the status alone. */
    method StartOrReload(created: Option<nat>, runs: bool, events: (seq<Outside>, seq<Outside>, seq<Outside>))
        returns (refused: bool, closes: seq<nat>)
      requires Valid()
      modifies this
      ensures Valid() && refused == old(closed)
      ensures refused ==> closes == [] && Value() == old(Value())
      ensures !refused ==> Bag(instance) + multiset(closes) == Bag(old(instance)) + Bag(created)
      ensures !refused ==>
                var reached := created.Some? && Failing !in events.1 && Interrupts(events.2);
                var published := created.Some? && runs && !reached;
                && instance == (if published then created else None) && !interrupted
                && status == if published then Started else if reached && Failing !in events.2 then Starting else Fatal
    {
      closes := [];
      refused := closed;
      if closed {
        return;
      }
      if instance.Some? {
        var old_ := instance.value;
        instance, status := None, Stopping;
        Unlocked(events.0);
        assert instance.None? by { StillNone(Service(Stopping, None, old(interrupted), old(closed)), events.0); }
        closes := [old_];
      }
      interrupted, status := false, Starting;
      closes := Create(created, runs, events.1, events.2, closes);
    }

    method Create(created: Option<nat>, runs: bool, creating: seq<Outside>, starting: seq<Outside>, before: seq<nat>)
        returns (closes: seq<nat>)
      requires instance.None? && status.Starting? && !interrupted
      modifies this
      ensures Bag(instance) + multiset(closes) == multiset(before) + Bag(created)
      ensures var reached := created.Some? && Failing !in creating && Interrupts(starting);
              var published := created.Some? && runs && !reached;
              && instance == (if published then created else None) && !interrupted
              && status == if published then Started else if reached && Failing !in starting then Starting else Fatal
    {
      closes := before;
      InterruptionReachesIff(Value(), creating);
      Unlocked(creating);
      if created.None? {
        status := Fatal;
        return;
      }
      instance := created;
      InterruptionReachesIff(Value(), starting);
      Unlocked(starting);
      if interrupted {
        interrupted, instance := false, None;
        closes := closes + [created.value];
        return;
      }
      if !runs {
        instance, status := None, Fatal;
        closes := closes + [created.value];
        return;
      }
      status := Started;
    }

    /** Closing.  The instance is closed here if there is one, and the service ends idle without instance.  If there
        is nothing to close, nothing changes: an error status stays. */
    method CloseService(events: seq<Outside>) returns (closes: seq<nat>)
      requires Valid()
      modifies this
      ensures Valid() && instance.None? && !status.Started?
      ensures multiset(closes) == Bag(old(instance))
      ensures if old(instance.None? && !status.Starting? && !status.Started?) then Value() == old(Value()) else status.Idle?
    {
      closes := [];
      var taken := instance;
      if instance.None? && !status.Starting? && !status.Started? {
        return;
      }
      instance, status := None, Stopping;
      ghost var s := Value();
      Unlocked(events);
      StillNone(s, events);
      if taken.Some? {
        closes := [taken.value];
      }
      status := Idle;
    }
  }

  lemma {:induction false} StillNone(s: Service, events: seq<Outside>)
    requires s.instance.None?
    ensures SufferAll(s, events).instance.None?
  {
    if events != [] { StillNone(s, events[..|events| - 1]); }
  }

  // ----- calls -----

  /** Where a call stands; the argument is the instance the call holds. */
  datatype Pc =
    | StartEntry | StartAcquire | StartPrepare
    | StartCloseOld(instance: nat) | StartBegin | StartCreate | StartCreateFailed
    | StartInstall(instance: nat) | StartRun(instance: nat) | StartEnd(instance: nat, ok: bool) | StartDiscard(instance: nat)
    | CloseEntry | CloseAcquire | ClosePrepare | CloseInstance(taken: Option<nat>) | CloseEnd
    | Done

  /** `created` instances have been made, numbered from 0; `closes[n]` counts the closings of `n`.
      `cancelled` are the start calls an interruption reached, `publishers` those that published. */
  datatype World = World(
    service: Service,
    owner: Option<nat>,
    calls: map<nat, Pc>,
    closes: seq<nat>,
    cancelled: set<nat>,
    publishers: set<nat>)

  function At(w: World, id: nat, pc: Pc): World { w.(calls := w.calls[id := pc]) }

  function Release(w: World, id: nat): World { At(w, id, Done).(owner := None) }

  function CloseOne(w: World, n: nat): World {
    if n < |w.closes| then w.(closes := w.closes[n := w.closes[n] + 1]) else w
  }

  function DoInterrupt(w: World): World {
    var w1 := w.(service := Interrupt(w.service));
    if CanInterrupt(w.service) && w.owner.Some? then w1.(cancelled := w.cancelled + {w.owner.value}) else w1
  }

  predicate Enabled(w: World, id: nat) {
    && id in w.calls
    && match w.calls[id]
       case StartAcquire => w.owner.None?
       case CloseAcquire => w.owner.None?
       case Done => false
       case _ => true
  }

  /** The step of a call.  `ok` is the outcome of creating or of running an instance. */
  function CallStep(w: World, id: nat, ok: bool): World
    requires Enabled(w, id)
  {
    var s := w.service;
    match w.calls[id]
    case StartEntry => At(DoInterrupt(w), id, StartAcquire)
    case StartAcquire => At(w, id, StartPrepare).(owner := Some(id))
    case StartPrepare =>
      if s.closed then Release(w, id)
      else if s.instance.Some? then At(w, id, StartCloseOld(s.instance.value)).(service := TakeOld(s))
      else At(w, id, StartCreate).(service := BeginStart(s))
    case StartCloseOld(n) => At(CloseOne(w, n), id, StartBegin)
    case StartBegin => At(w, id, StartCreate).(service := BeginStart(s))
    case StartCreate =>
      if ok then At(w, id, StartInstall(|w.closes|)).(closes := w.closes + [0]) else At(w, id, StartCreateFailed)
    case StartCreateFailed => Release(w, id).(service := Fail(s))
    case StartInstall(n) => At(w, id, StartRun(n)).(service := Install(s, n))
    case StartRun(n) => At(w, id, StartEnd(n, ok))
    case StartEnd(n, started) =>
      if s.interrupted || !started then At(w, id, StartDiscard(n)).(service := EndStart(s, started))
      else Release(w, id).(service := EndStart(s, started), publishers := w.publishers + {id})
    case StartDiscard(n) => Release(CloseOne(w, n), id)
    case CloseEntry => At(DoInterrupt(w), id, CloseAcquire)
    case CloseAcquire => At(w, id, ClosePrepare).(owner := Some(id))
    case ClosePrepare =>
      if NothingToClose(s) then Release(w, id)
      else At(w, id, CloseInstance(s.instance)).(service := BeginClose(s))
    case CloseInstance(taken) => At(if taken.Some? then CloseOne(w, taken.value) else w, id, CloseEnd)
    case CloseEnd => Release(w, id).(service := EndClose(s))
  }

  ghost predicate WorldNext(w: World, w': World) {
    || (exists id, ok :: Enabled(w, id) && w' == CallStep(w, id, ok))
    || (exists id :: id !in w.calls && (w' == At(w, id, StartEntry) || w' == At(w, id, CloseEntry)))
    || w' == w.(service := Fail(w.service))
    || w' == w.(service := w.service.(closed := true))
  }

  const FRESH := World(Service(Idle, None, false, false), None, map[], [], {}, {})

  ghost predicate IsWorldRun(run: seq<World>) {
    && run != [] && run[0] == FRESH
    && forall i | 0 <= i < |run| - 1 :: WorldNext(run[i], run[i + 1])
  }

  // ----- invariants -----

  /** Positions that only the owner of the lifecycle lock can be at. */
  predicate Inside(pc: Pc) {
    !pc.StartEntry? && !pc.StartAcquire? && !pc.CloseEntry? && !pc.CloseAcquire? && !pc.Done?
  }

  /** The instance a call keeps outside the service. */
  function HeldBy(pc: Pc): Option<nat> {
    match pc
    case StartCloseOld(n) => Some(n)
    case StartInstall(n) => Some(n)
    case StartDiscard(n) => Some(n)
    case CloseInstance(taken) => taken
    case _ => None
  }

  function Held(w: World): Option<nat> {
    if w.owner.Some? && w.owner.value in w.calls then HeldBy(w.calls[w.owner.value]) else None
  }

  ghost predicate Live(w: World, n: nat) { w.service.instance == Some(n) || Held(w) == Some(n) }

  ghost predicate LocksOk(w: World) {
    && (w.owner.Some? ==> w.owner.value in w.calls && Inside(w.calls[w.owner.value]))
    && (forall id | id in w.calls && Inside(w.calls[id]) :: w.owner == Some(id))
  }

  /** Every created instance is current, or held by the running call, or closed exactly once. */
  ghost predicate InstancesOk(w: World) {
    && (forall n | 0 <= n < |w.closes| :: w.closes[n] == if Live(w, n) then 0 else 1)
    && (w.service.instance.Some? ==> w.service.instance.value < |w.closes|)
    && (Held(w).Some? ==> Held(w).value < |w.closes|)
    && !(w.service.instance.Some? && Held(w).Some?)
  }

  /** What the owner's position says about the service. */
  ghost predicate PositionOk(w: World) {
    && (w.service.status.Started? ==> w.service.instance.Some?)
    && (w.service.status.Starting? && w.service.instance.Some? ==> RunningInstance(w) == w.service.instance)
    && (w.owner.Some? && w.owner.value in w.calls ==>
          match w.calls[w.owner.value]
          case StartRun(n) => w.service.instance == Some(n) && !w.service.status.Started?
          case StartEnd(n, _) => w.service.instance == Some(n) && !w.service.status.Started?
          case StartPrepare => true
          case ClosePrepare => true
          case _ => w.service.instance.None?)
  }

  function RunningInstance(w: World): Option<nat> {
    if w.owner.Some? && w.owner.value in w.calls then
      match w.calls[w.owner.value]
      case StartRun(n) => Some(n)
      case StartEnd(n, _) => Some(n)
      case _ => None
    else None
  }

  /** An interruption that reached a start is remembered until that start ends. */
  ghost predicate InterruptionsOk(w: World) {
    && w.cancelled !! w.publishers
    && (forall id | id in w.cancelled + w.publishers :: id in w.calls)
    && (forall id | id in w.cancelled :: w.calls[id] == Done || w.calls[id].StartDiscard? || (w.owner == Some(id) && RunningInstance(w).Some? && w.service.interrupted))
    && (forall id | id in w.publishers :: w.calls[id] == Done)
  }

  ghost predicate WorldOk(w: World) { LocksOk(w) && InstancesOk(w) && PositionOk(w) && InterruptionsOk(w) }

  lemma FreshOk()
    ensures WorldOk(FRESH)
  {
  }

  lemma CallStepLocks(w: World, id: nat, ok: bool)
    requires LocksOk(w) && Enabled(w, id)
    ensures LocksOk(CallStep(w, id, ok))
  {
  }

  predicate IsClose(pc: Pc) {
    pc.CloseEntry? || pc.CloseAcquire? || pc.ClosePrepare? || pc.CloseInstance? || pc.CloseEnd?
  }

  lemma StartStepInstances(w: World, id: nat, ok: bool)
    requires LocksOk(w) && InstancesOk(w) && PositionOk(w) && Enabled(w, id) && !IsClose(w.calls[id])
    ensures InstancesOk(CallStep(w, id, ok))
  {
    var w' := CallStep(w, id, ok);
    assert w.owner.Some? && w.owner.value != id ==> Held(w') == Held(w);
  }

  lemma CloseStepInstances(w: World, id: nat, ok: bool)
    requires LocksOk(w) && InstancesOk(w) && PositionOk(w) && Enabled(w, id) && IsClose(w.calls[id])
    ensures InstancesOk(CallStep(w, id, ok))
  {
    var w' := CallStep(w, id, ok);
    assert w.owner.Some? && w.owner.value != id ==> Held(w') == Held(w);
  }

  lemma CallStepPosition(w: World, id: nat, ok: bool)
    requires LocksOk(w) && PositionOk(w) && Enabled(w, id)
    ensures PositionOk(CallStep(w, id, ok))
  {
  }

  /** An entering call interrupts the start that runs, if one does. */
  lemma InterruptReaches(w: World)
    requires LocksOk(w) && PositionOk(w) && InterruptionsOk(w)
    ensures InterruptionsOk(DoInterrupt(w)) && LocksOk(DoInterrupt(w))
  {
  }

  lemma StartStepInterruptions(w: World, id: nat, ok: bool)
    requires LocksOk(w) && PositionOk(w) && InterruptionsOk(w) && Enabled(w, id) && !IsClose(w.calls[id])
    ensures InterruptionsOk(CallStep(w, id, ok))
  {
    if w.calls[id].StartEntry? { InterruptReaches(w); }
  }

  lemma CloseStepInterruptions(w: World, id: nat, ok: bool)
    requires LocksOk(w) && PositionOk(w) && InterruptionsOk(w) && Enabled(w, id) && IsClose(w.calls[id])
    ensures InterruptionsOk(CallStep(w, id, ok))
  {
    if w.calls[id].CloseEntry? { InterruptReaches(w); }
  }

  lemma CallStepOk(w: World, id: nat, ok: bool)
    requires WorldOk(w) && Enabled(w, id)
    ensures WorldOk(CallStep(w, id, ok))
  {
    CallStepLocks(w, id, ok);
    CallStepPosition(w, id, ok);
    if IsClose(w.calls[id]) {
      CloseStepInstances(w, id, ok);
      CloseStepInterruptions(w, id, ok);
    } else {
      StartStepInstances(w, id, ok);
      StartStepInterruptions(w, id, ok);
    }
  }

  /** A new call, a reported error and the closing of the service itself. */
  lemma OutsideOk(w: World, w': World)
    requires WorldOk(w)
    requires || (exists id :: id !in w.calls && (w' == At(w, id, StartEntry) || w' == At(w, id, CloseEntry)))
             || w' == w.(service := Fail(w.service))
             || w' == w.(service := w.service.(closed := true))
    ensures WorldOk(w')
  {
    assert Held(w') == Held(w) && RunningInstance(w') == RunningInstance(w);
  }

  lemma WorldNextOk(w: World, w': World)
    requires WorldOk(w) && WorldNext(w, w')
    ensures WorldOk(w')
  {
    if id, ok :| Enabled(w, id) && w' == CallStep(w, id, ok) { CallStepOk(w, id, ok); } else { OutsideOk(w, w'); }
  }

  lemma {:induction false} WorldRunOk(run: seq<World>)
    requires IsWorldRun(run)
    ensures WorldOk(run[|run| - 1])
  {
    if |run| == 1 {
      FreshOk();
    } else {
      WorldRunOk(run[..|run| - 1]);
      WorldNextOk(run[|run| - 2], run[|run| - 1]);
    }
  }

  /** In every interleaving: a started service has an instance; at most one created instance is
      unclosed; every created instance is the current one, or held by the call that owns the
      lifecycle lock, or closed exactly once. */
  lemma InstancesAccounted(run: seq<World>)
    requires IsWorldRun(run)
    ensures var w := run[|run| - 1];
            && (w.service.status.Started? ==> w.service.instance.Some?)
            && (forall m, n | 0 <= m < |w.closes| && 0 <= n < |w.closes| && w.closes[m] == 0 && w.closes[n] == 0 :: m == n)
            && (forall n | 0 <= n < |w.closes| ::
                  w.closes[n] == if w.service.instance == Some(n) || Held(w) == Some(n) then 0 else 1)
  {
    WorldRunOk(run);
    var w := run[|run| - 1];
    forall n | 0 <= n < |w.closes| ensures w.closes[n] == if w.service.instance == Some(n) || Held(w) == Some(n) then 0 else 1 {
      assert w.closes[n] == if Live(w, n) then 0 else 1;
    }
  }

  /** A start that an interruption reached never publishes the started state. */
  lemma InterruptedStartsNeverPublish(run: seq<World>)
    requires IsWorldRun(run)
    ensures run[|run| - 1].cancelled !! run[|run| - 1].publishers
  {
    WorldRunOk(run);
  }

  /** When no call is running, every instance but the current one has been closed exactly once. */
  lemma QuietServiceLeaksNothing(run: seq<World>)
    requires IsWorldRun(run) && run[|run| - 1].owner.None?
    ensures var w := run[|run| - 1];
            forall n | 0 <= n < |w.closes| && w.service.instance != Some(n) :: w.closes[n] == 1
  {
    WorldRunOk(run);
    var w := run[|run| - 1];
    forall n | 0 <= n < |w.closes| && w.service.instance != Some(n) ensures w.closes[n] == 1 {
      assert !Live(w, n);
    }
  }
}
