/** What holds in every run of the exchange, whatever order answers arrive in. */
module WalkRuns {
  import opened Optional
  import opened DnsRules
  import opened RuleWalk
  import opened WalkInvariant
  import opened WalkSteps
  import opened WalkMachine

  /** The outcomes the rule list allows for a query with these options. */
  function AllowedOutcomes(r: Router, o: QueryOptions): set<Outcome> {
    Allowed(r, 0, Scope(o, None, map[]), {})
  }

  // ----- safety -----

  ghost predicate PendingOk(r: Router, o: QueryOptions, w: Walk, p: Pending) {
    && PendingOutcome(r, w, p) in AllowedOutcomes(r, o)
    && (p.future.Some? ==> p.future.value < |w.futures|)
  }

  ghost predicate Undecided(r: Router, o: QueryOptions, c: Config) {
    WalkOk(r, c.walk, c.done) && Open(r, c.walk) == AllowedOutcomes(r, o)
  }

  ghost predicate SuspensionOk(r: Router, o: QueryOptions, c: Config, s: Suspension) {
    match s
    case Await(f) => Undecided(r, o, c) && f < |c.walk.futures|
    case Drain => Undecided(r, o, c)
    case Pend(p) => WalkOk(r, c.walk, c.done) && c.walk.armed == [] && PendingOk(r, o, c.walk, p)
  }

  ghost predicate Safe(r: Router, o: QueryOptions, c: Config) {
    && FuturesOk(r, c.walk, c.done)
    && c.signalled <= c.done
    && match c.control
       case Walking => Undecided(r, o, c)
       case Checking(s) => SuspensionOk(r, o, c, s)
       case Blocked(s) => SuspensionOk(r, o, c, s) && !s.Pend?
       case Finishing(p) => PendingOk(r, o, c.walk, p)
       case Finished(outcome) => outcome in AllowedOutcomes(r, o)
       case Cancelled => true
  }

  lemma ArmedRulesInRange(r: Router, w: Walk, done: set<nat>)
    requires AllArmedOk(r, w, done)
    ensures ArmedInRange(r, w.armed)
  {
    forall k | 0 <= k < |w.armed| ensures w.armed[k].index < |r.rules| { assert ArmedOk(r, w, done, w.armed[k]); }
  }

  lemma SweepMoveKeeps(r: Router, w: Walk, done: set<nat>)
    requires Validated(r.rules) && WalkOk(r, w, done)
    ensures ArmedInRange(r, w.armed)
    ensures var w1 := Settle(r, w, done);
            var s := Sweep(r, w1, done, w.armed);
            var w2 := w1.(armed := s.rest);
            && FuturesOk(r, w2, done)
            && |w2.futures| == |w.futures| && Grew(r, w, w2) && w2.index == w.index
            && w2.namedFutures == w.namedFutures
            && (forall a | a in s.rest :: a in w.armed)
  {
    ArmedRulesInRange(r, w, done);
    SettleKeepsOk(r, w, done);
    var w1 := Settle(r, w, done);
    var s := Sweep(r, w1, done, w.armed);
    SweepMembers(r, w1, done, w.armed);
    FuturesIgnoreArming(r, w1, done, s.rest);
  }

  lemma LostIgnoresArming(r: Router, w: Walk, done: set<nat>, armed: seq<Armed>, a: Armed)
    requires Lost(r, w, done, a)
    ensures Lost(r, w.(armed := armed), done, a)
  {
    HeldIgnoresSettling(r, w, w.(armed := armed));
  }

  lemma SweepMoveMisses(r: Router, w: Walk, done: set<nat>)
    requires Validated(r.rules) && WalkOk(r, w, done)
    ensures ArmedInRange(r, w.armed)
    ensures var w1 := Settle(r, w, done);
            var s := Sweep(r, w1, done, w.armed);
            var w2 := w1.(armed := s.rest);
            forall a | a in s.missed :: a in w.armed && Lost(r, w2, done, a)
  {
    ArmedRulesInRange(r, w, done);
    SettleKeepsOk(r, w, done);
    var w1 := Settle(r, w, done);
    var s := Sweep(r, w1, done, w.armed);
    SweepKeepsWinners(r, w1, done, w.armed);
    forall a | a in s.missed ensures Lost(r, w1.(armed := s.rest), done, a) { LostIgnoresArming(r, w1, done, s.rest, a); }
  }

  lemma SweepMoveOpen(r: Router, w: Walk, done: set<nat>)
    requires Validated(r.rules) && WalkOk(r, w, done) && ArmedInRange(r, w.armed)
    requires Sweep(r, Settle(r, w, done), done, w.armed).winner.None?
    ensures var w1 := Settle(r, w, done);
            var s := Sweep(r, w1, done, w.armed);
            var w2 := w1.(armed := s.rest);
            WalkOk(r, w2, done) && Open(r, w2) == Open(r, w) && forall a | a in s.rest :: !Ready(a, done)
  {
    SettleKeepsOk(r, w, done);
    var w1 := Settle(r, w, done);
    var s := Sweep(r, w1, done, w.armed);
    SweepKeepsWinners(r, w1, done, w.armed);
    HeldIgnoresSettling(r, w1, w1.(armed := s.rest));
    SweepMembers(r, w1, done, w.armed);
    SweepLeavesWaiting(r, w1, done, w.armed);
    SweepAscends(r, w1, done, w.armed);
    SweptWalkOk(r, w1, done, s.rest);
  }

  lemma SweepMoveWins(r: Router, w: Walk, done: set<nat>)
    requires Validated(r.rules) && WalkOk(r, w, done) && ArmedInRange(r, w.armed)
    requires Sweep(r, Settle(r, w, done), done, w.armed).winner.Some?
    ensures var w1 := Settle(r, w, done);
            var s := Sweep(r, w1, done, w.armed);
            var w2 := w1.(armed := s.rest);
            && s.winner.value.0 in w.armed
            && DecisionOutcome(r, w2, s.winner.value.1) in Open(r, w)
            && (s.winner.value.1.Exchange? ==> s.winner.value.1.pending.future.None?)
  {
    SettleKeepsOk(r, w, done);
    var w1 := Settle(r, w, done);
    var s := Sweep(r, w1, done, w.armed);
    SweepKeepsWinners(r, w1, done, w.armed);
    HeldIgnoresSettling(r, w1, w1.(armed := s.rest));
    SweepMembers(r, w1, done, w.armed);
    DecisionsAreFresh(r, w1, done, w.armed);
    WinnersStayAllowed(r, w.index, ScopeOf(r, w), WinnersOf(r, w, w.armed));
  }

  /** A sweep in the resume loop, seen from the walk before settling. */
  lemma SweepMoveOk(r: Router, w: Walk, done: set<nat>)
    requires Validated(r.rules) && WalkOk(r, w, done)
    ensures ArmedInRange(r, w.armed)
    ensures var w1 := Settle(r, w, done);
            var s := Sweep(r, w1, done, w.armed);
            var w2 := w1.(armed := s.rest);
            && FuturesOk(r, w2, done)
            && |w2.futures| == |w.futures| && Grew(r, w, w2) && w2.index == w.index
            && (forall a | a in s.missed :: a in w.armed && Lost(r, w2, done, a))
            && (s.winner.None? ==> WalkOk(r, w2, done) && Open(r, w2) == Open(r, w) && forall a | a in s.rest :: !Ready(a, done))
            && (s.winner.Some? ==>
                  && s.winner.value.0 in w.armed
                  && DecisionOutcome(r, w2, s.winner.value.1) in Open(r, w)
                  && (s.winner.value.1.Exchange? ==> s.winner.value.1.pending.future.None?))
  {
    SweepMoveKeeps(r, w, done);
    SweepMoveMisses(r, w, done);
    if Sweep(r, Settle(r, w, done), done, w.armed).winner.None? { SweepMoveOpen(r, w, done); } else { SweepMoveWins(r, w, done); }
  }

  lemma SweptWalkOk(r: Router, w: Walk, done: set<nat>, rest: seq<Armed>)
    requires WalkOk(r, w, done) && Ascending(rest) && forall a | a in rest :: a in w.armed
    ensures WalkOk(r, w.(armed := rest), done)
  {
    var w2 := w.(armed := rest);
    FuturesIgnoreArming(r, w, done, rest);
    forall t | t in w2.named ensures PublicationOk(r, w2, t) { assert PublicationOk(r, w, t); }
    forall a | a in rest ensures ArmedOk(r, w2, done, a) { assert ArmedOk(r, w, done, a); }
    HeldIgnoresSettling(r, w, w2);
  }

  lemma WalkMoveSafe(r: Router, o: QueryOptions, c: Config)
    requires Validated(r.rules) && Safe(r, o, c) && c.control.Walking?
    ensures ArmedInRange(r, c.walk.armed) && Safe(r, o, WalkMove(r, c))
  {
    RuleStepOk(r, c.walk, c.done);
  }

  lemma CheckMoveSafe(r: Router, o: QueryOptions, c: Config)
    requires Validated(r.rules) && Safe(r, o, c) && c.control.Checking?
    ensures ArmedInRange(r, c.walk.armed) && Safe(r, o, CheckMove(r, c))
  {
    SweepMoveOk(r, c.walk, c.done);
    if c.control.suspension.Pend? {
      var w1 := Settle(r, c.walk, c.done);
      SettleKeeps(r, c.walk, c.done, |c.walk.futures|);
      HeldIgnoresSettling(r, c.walk, w1);
      assert CheckMove(r, c).walk == w1;
      var p := c.control.suspension.pending;
      assert PendingOutcome(r, w1, p) == PendingOutcome(r, c.walk, p) by {
        assert p.future.Some? ==> HeldOption(r, w1, p.future) == HeldOption(r, c.walk, p.future);
      }
    }
  }

  lemma NextSafe(r: Router, o: QueryOptions, c: Config, c': Config)
    requires Validated(r.rules) && Safe(r, o, c) && NextStep(r, c, c')
    ensures Safe(r, o, c')
  {
    if CanMove(r, c) && c' == Move(r, c) {
      if c.control.Walking? { WalkMoveSafe(r, o, c); }
      if c.control.Checking? { CheckMoveSafe(r, o, c); }
    } else if f :| Arrives(c, c', f) {
      ArrivalSafe(r, o, c, f);
    }
  }

  lemma ArrivalSafe(r: Router, o: QueryOptions, c: Config, f: nat)
    requires Safe(r, o, c) && f < |c.walk.futures|
    ensures Safe(r, o, c.(done := c.done + {f}))
  {
    forall k | 0 <= k < |c.walk.futures| ensures FutureOk(r, c.walk, c.done + {f}, k) { assert FutureOk(r, c.walk, c.done, k); }
    if WalkOk(r, c.walk, c.done) { ArrivalKeepsOk(r, c.walk, c.done, f); }
  }

  lemma InitialSafe(r: Router, o: QueryOptions)
    ensures Safe(r, o, Initial(o))
  {
    InitialOk(r, o);
  }

  // ----- wake tokens -----

  ghost predicate CallbackRunning(c: Config, f: nat) { f < |c.walk.futures| && f !in c.signalled }

  /** While the loop is blocked, a token is there or some callback has yet to offer one. */
  ghost predicate Wakeable(c: Config) {
    c.control.Blocked? ==> c.walk.futures != [] && (c.token || exists f :: CallbackRunning(c, f))
  }

  lemma BlockingMoveWakeable(r: Router, o: QueryOptions, c: Config)
    requires Validated(r.rules) && Safe(r, o, c) && c.control.Checking? && ArmedInRange(r, c.walk.armed)
    ensures Wakeable(CheckMove(r, c))
  {
    var c' := CheckMove(r, c);
    if c'.control.Blocked? {
      SweepMoveOk(r, c.walk, c.done);
      CheckMoveSafe(r, o, c);
      if c.control.suspension.Await? {
        assert CallbackRunning(c', c.control.suspension.future);
      } else {
        var a := c'.walk.armed[0];
        assert !Ready(a, c.done) && ArmedOk(r, c'.walk, c.done, a);
        var f :| f in a.futures && f !in c.done;
        assert CallbackRunning(c', f);
      }
    }
  }

  lemma NextWakeable(r: Router, o: QueryOptions, c: Config, c': Config)
    requires Validated(r.rules) && Safe(r, o, c) && Wakeable(c) && NextStep(r, c, c')
    ensures Wakeable(c')
  {
    if CanMove(r, c) && c' == Move(r, c) {
      if c.control.Checking? { BlockingMoveWakeable(r, o, c); }
    } else if !c'.token && c'.control.Blocked? {
      var f :| CallbackRunning(c, f);
      assert CallbackRunning(c', f);
    }
  }

  // ----- what a rule step does to the armed rules -----

  ghost predicate Disposed(armed: seq<Armed>, missed: seq<Armed>, a: Armed) { a in armed || a in missed }

  ghost predicate Accounted(armed: seq<Armed>, missed: seq<Armed>, j: nat) {
    (exists a :: a in armed && a.index == j) || (exists a :: a in missed && a.index == j)
  }

  /** Nobody decides without being recorded, and nobody but a race rule decides over an armed one. */
  ghost predicate StepRecorded(r: Router, w: Walk, st: Step) {
    && (st.effect.Continue? ==>
          && st.decider == Nobody
          && (forall a | a in w.armed :: Disposed(st.walk.armed, st.missed, a))
          && (w.index < |r.rules| && r.rules[w.index].Races() ==> Accounted(st.walk.armed, st.missed, w.index)))
    && (st.effect.Suspend? && !st.effect.suspension.Pend? ==>
          st.decider == Nobody && st.walk.armed == w.armed && st.missed == [])
    && (st.effect.Finish? || (st.effect.Suspend? && st.effect.suspension.Pend?) ==> st.decider != Nobody)
    && (st.decider.ByRule? || st.decider.ByDefault? ==> w.armed == [] && st.walk.armed == [] && st.missed == [] && st.walk.index == w.index)
    && (st.decider.ByRule? ==> st.decider.index == w.index)
    && (st.decider.ByDefault? ==> w.index >= |r.rules|)
  }

  lemma MatchStepRecorded(r: Router, w: Walk, done: set<nat>)
    requires w.index < |r.rules| && !r.rules[w.index].Races()
    ensures StepRecorded(r, w, MatchStep(r, w, done))
    ensures MatchStep(r, w, done).missed == []
  {
  }

  lemma SweepDisposes(r: Router, w: Walk, done: set<nat>, armed: seq<Armed>)
    requires ArmedInRange(r, armed) && Ascending(armed)
    ensures var s := Sweep(r, w, done, armed);
            s.winner.None? ==> forall b | b in armed :: Disposed(s.rest, s.missed, b)
  {
    var s := Sweep(r, w, done, armed);
    if s.winner.None? {
      forall b | b in armed ensures Disposed(s.rest, s.missed, b) {
        SweepPriority(r, w, done, armed, b);
      }
    }
  }

  lemma ArmStepRecorded(r: Router, w: Walk, done: set<nat>)
    requires w.index < |r.rules| && ArmedInRange(r, w.armed)
    requires Ascending(w.armed) && forall a | a in w.armed :: a.index < w.index
    ensures StepRecorded(r, w, ArmStep(r, w, done))
  {
    var a := NewArmed(w, r.rules[w.index], done);
    var armed := w.armed + [a];
    var st := ArmStep(r, w, done);
    assert a in armed && a.index == w.index;
    if a.futures != [] {
      assert st.walk.armed == armed;
    } else {
      SweepDisposes(r, w, done, armed);
      var s := Sweep(r, w, done, armed);
      if s.winner.None? {
        assert st.walk.armed == s.rest && st.missed == s.missed;
        assert Disposed(s.rest, s.missed, a);
      } else {
        assert st.decider.ByRace?;
      }
    }
  }

  lemma RuleStepRecorded(r: Router, w: Walk, done: set<nat>)
    requires ArmedInRange(r, w.armed) && Ascending(w.armed) && forall a | a in w.armed :: a.index < w.index
    ensures StepRecorded(r, w, RuleStep(r, w, done))
  {
    if w.index < |r.rules| {
      var rule := r.rules[w.index];
      if !rule.HasBindings() {
        MatchStepRecorded(r, w, done);
      } else {
        var w1 := Settle(r, w, done);
        SettleKeeps(r, w, done, |w.futures|);
        if rule.race {
          ArmStepRecorded(r, w1, done);
        } else if PendingBindings(w1, rule, done) == [] {
          MatchStepRecorded(r, w1, done);
        }
      }
    }
  }

  /** The race rules that missed in a step stay judged as they were. */
  lemma RuleStepLosers(r: Router, w: Walk, done: set<nat>)
    requires Validated(r.rules) && WalkOk(r, w, done) && ArmedInRange(r, w.armed)
    ensures var st := RuleStep(r, w, done);
            forall a | a in st.missed :: Lost(r, st.walk, done, a) && a.index <= w.index && st.walk.namedFutures == w.namedFutures
  {
    if w.index < |r.rules| {
      var rule := r.rules[w.index];
      var w1 := Settle(r, w, done);
      SettleKeepsOk(r, w, done);
      if !rule.HasBindings() {
        MatchStepRecorded(r, w, done);
      } else if rule.race {
        ArmStepOk(r, w1, done);
        ArmStepGrows(r, w1, done);
        ArmLosersAreOld(r, w1, done);
        var st := ArmStep(r, w1, done);
        forall a | a in st.missed ensures Lost(r, st.walk, done, a) {
          GrowthKeepsLost(r, w1, st.walk, done, a);
        }
      } else if PendingBindings(w1, rule, done) == [] {
        MatchStepRecorded(r, w1, done);
      }
    }
  }

  lemma ArmLosersAreOld(r: Router, w: Walk, done: set<nat>)
    requires w.index < |r.rules| && ArmedInRange(r, w.armed) && forall a | a in w.armed :: a.index < w.index
    ensures forall a | a in ArmStep(r, w, done).missed :: a.index <= w.index
    ensures ArmStep(r, w, done).walk.namedFutures == w.namedFutures
  {
    var armed := w.armed + [NewArmed(w, r.rules[w.index], done)];
    if NewArmed(w, r.rules[w.index], done).futures == [] { SweepMembers(r, w, done, armed); }
  }
}
