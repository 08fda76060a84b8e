/** The outcomes of an exchange, exactly: each that some run ends with, and a run for each. */
module ExactOutcomes {
  import opened Optional
  import opened DnsRules
  import opened RuleWalk
  import opened WalkInvariant
  import opened WalkSteps
  import opened WalkMachine
  import opened WalkRuns
  import opened WalkTheorems
  import opened RaceOrder
  import opened Deciders
  import opened WalkCourse

  // ----- every end is on the list -----

  ghost predicate EndTied(r: Router, o: QueryOptions, c: Config)
    requires CanDecide(r, o, c.decider)
  {
    match c.control
    case Finished(out) => out == DecidedOutcome(r, o, c.decider)
    case Finishing(p) => PendingOutcome(r, c.walk, p) == DecidedOutcome(r, o, c.decider)
    case Checking(Pend(p)) => PendingOutcome(r, c.walk, p) == DecidedOutcome(r, o, c.decider)
    case _ => false
  }

  ghost predicate Steered(r: Router, o: QueryOptions, c: Config) {
    && (c.control.Walking? || Suspended(c) ==> OnCourse(r, o, c.walk, c.done))
    && (Decided(c) ==> CanDecide(r, o, c.decider) && EndTied(r, o, c))
  }

  ghost predicate Kept(r: Router, o: QueryOptions, c: Config) { Invariant(r, o, c) && Ordered(r, c) && Steered(r, o, c) }

  lemma WalkMoveSteered(r: Router, o: QueryOptions, c: Config)
    requires Validated(r.rules) && Kept(r, o, c) && c.control.Walking?
    ensures ArmedInRange(r, c.walk.armed) && Steered(r, o, WalkMove(r, c))
    ensures var d := WalkMove(r, c).decider; d.ByRace? ==> d.index < |r.rules| && BindsAt(r, o, d.index) <= Asked(c.walk, c.done)
  {
    RuleIsGuided(r, o, c.walk, c.done);
    RuleStepRecorded(r, c.walk, c.done);
  }

  lemma CheckMoveLevel(r: Router, o: QueryOptions, c: Config)
    requires Validated(r.rules) && Kept(r, o, c) && Suspended(c) && c.control.Checking?
    ensures ArmedInRange(r, c.walk.armed)
    ensures var w1 := Settle(r, c.walk, c.done);
            && OnCourse(r, o, w1, c.done) && WalkOk(r, w1, c.done) && w1.armed == c.walk.armed && w1.index == c.walk.index
            && Asked(w1, c.done) == Asked(c.walk, c.done) && Sweepable(r, o, w1, c.done, c.walk.armed)
  {
    var w1 := Settle(r, c.walk, c.done);
    ArmedRulesInRange(r, c.walk, c.done);
    SettleKeepsOk(r, c.walk, c.done);
    SettlingKeepsCourse(r, o, c.walk, c.done);
    forall a | a in w1.armed ensures Judgeable(r, w1, c.done, a) { assert ArmedOk(r, w1, c.done, a) && Waiting(r, a); }
  }

  lemma CheckMoveWins(r: Router, o: QueryOptions, c: Config)
    requires Validated(r.rules) && Kept(r, o, c) && Suspended(c) && c.control.Checking? && ArmedInRange(r, c.walk.armed)
    requires Sweep(r, Settle(r, c.walk, c.done), c.done, c.walk.armed).winner.Some?
    ensures Steered(r, o, CheckMove(r, c))
    ensures var d := CheckMove(r, c).decider;
            d.ByRace? && d.index < |r.rules| && DecidingRace(r, o, d.index) && BindsAt(r, o, d.index) <= Asked(c.walk, c.done)
  {
    var w1 := Settle(r, c.walk, c.done);
    CheckMoveLevel(r, o, c);
    SweepLeads(r, o, w1, c.done, c.walk.armed);
    DecisionsAreFresh(r, w1, c.done, c.walk.armed);
    ArmedBelowIndex(r, o, c);
    WinnersAreMet(r, o, w1, c.done, c.walk.armed);
    SweepDecides(r, o, w1, c.done, c.walk.armed);
  }

  lemma CheckMoveWaits(r: Router, o: QueryOptions, c: Config)
    requires Validated(r.rules) && Kept(r, o, c) && Suspended(c) && c.control.Checking? && ArmedInRange(r, c.walk.armed)
    requires Sweep(r, Settle(r, c.walk, c.done), c.done, c.walk.armed).winner.None?
    ensures OnCourse(r, o, CheckMove(r, c).walk, c.done)
    ensures forall a | a in CheckMove(r, c).walk.armed :: a in c.walk.armed && !Ready(a, c.done)
  {
    var w1 := Settle(r, c.walk, c.done);
    CheckMoveLevel(r, o, c);
    SweepSorts(r, o, w1, c.done, c.walk.armed);
    var w2 := CheckMove(r, c).walk;
    assert w2 == w1.(armed := Sweep(r, w1, c.done, c.walk.armed).rest);
    HeldIgnoresSettling(r, w1, w2);
    KeepsCourse(r, o, w1, w2, c.done);
  }

  lemma CheckMoveEnds(r: Router, o: QueryOptions, c: Config)
    requires Validated(r.rules) && Kept(r, o, c) && c.control.Checking? && c.control.suspension.Pend?
    ensures ArmedInRange(r, c.walk.armed) && Steered(r, o, CheckMove(r, c)) && CheckMove(r, c).decider == c.decider
  {
    var w1, p := Settle(r, c.walk, c.done), c.control.suspension.pending;
    SettleKeeps(r, c.walk, c.done, |c.walk.futures|);
    HeldIgnoresSettling(r, c.walk, w1);
    assert CheckMove(r, c).walk == w1;
    assert p.future.Some? ==> HeldOption(r, w1, p.future) == HeldOption(r, c.walk, p.future);
  }

  lemma MoveSteered(r: Router, o: QueryOptions, c: Config)
    requires Validated(r.rules) && Kept(r, o, c) && CanMove(r, c)
    ensures Steered(r, o, Move(r, c))
  {
    if c.control.Walking? {
      WalkMoveSteered(r, o, c);
    } else if c.control.Checking? && c.control.suspension.Pend? {
      CheckMoveEnds(r, o, c);
    } else if c.control.Checking? {
      if Sweep(r, Settle(r, c.walk, c.done), c.done, c.walk.armed).winner.Some? { CheckMoveWins(r, o, c); } else { CheckMoveWaits(r, o, c); }
    }
  }

  lemma NextSteered(r: Router, o: QueryOptions, c: Config, c': Config)
    requires Validated(r.rules) && Kept(r, o, c) && NextStep(r, c, c')
    ensures Steered(r, o, c')
  {
    if CanMove(r, c) && c' == Move(r, c) { MoveSteered(r, o, c); } else { EnvironmentSteered(r, o, c, c'); }
  }

  lemma EnvironmentSteered(r: Router, o: QueryOptions, c: Config, c': Config)
    requires Steered(r, o, c) && ((exists f :: Arrives(c, c', f)) || (exists f :: Signals(c, c', f)) || Cancels(c, c'))
    ensures Steered(r, o, c')
  {
    if f :| Arrives(c, c', f) {
      if c.control.Walking? || Suspended(c) { ArrivalKeepsCourse(r, o, c.walk, c.done, f); }
    }
  }

  lemma NextKept(r: Router, o: QueryOptions, c: Config, c': Config)
    requires Validated(r.rules) && Kept(r, o, c) && NextStep(r, c, c')
    ensures Kept(r, o, c')
  {
    NextInvariant(r, o, c, c');
    NextOrdered(r, o, c, c');
    NextSteered(r, o, c, c');
  }

  lemma {:induction false} RunKept(r: Router, o: QueryOptions, run: seq<Config>)
    requires Validated(r.rules) && IsRun(r, o, run)
    ensures Kept(r, o, run[|run| - 1])
  {
    if |run| == 1 {
      InitialInvariant(r, o);
      InitialOrdered(r, o);
      InitialOnCourse(r, o);
    } else {
      PrefixIsRun(r, o, run);
      RunKept(r, o, run[..|run| - 1]);
      NextKept(r, o, run[|run| - 2], run[|run| - 1]);
    }
  }

  // ----- building runs -----

  function Last(run: seq<Config>): Config
    requires run != []
  {
    run[|run| - 1]
  }

  lemma Extend(r: Router, o: QueryOptions, run: seq<Config>, c': Config) returns (run': seq<Config>)
    requires IsRun(r, o, run) && NextStep(r, Last(run), c')
    ensures run' == run + [c'] && IsRun(r, o, run') && Last(run') == c'
  {
    run' := run + [c'];
    forall i | 0 <= i < |run'| - 1 ensures NextStep(r, run'[i], run'[i + 1]) {
      if i < |run| - 1 { assert run'[i] == run[i] && run'[i + 1] == run[i + 1]; }
    }
  }

  /** Any run can be brought to an end, and once somebody has decided it is they who decide. */
  lemma {:induction false} Complete(r: Router, o: QueryOptions, run: seq<Config>) returns (run': seq<Config>)
    requires Validated(r.rules) && IsRun(r, o, run) && !Last(run).control.Cancelled?
    ensures IsRun(r, o, run') && Last(run').control.Finished?
    ensures Decided(Last(run)) ==> Last(run').decider == Last(run).decider
    decreases Rank(r, Initial(o)) - |run|
  {
    var c := Last(run);
    RunInvariant(r, o, run);
    if c.control.Finished? {
      run' := run;
    } else {
      var c' := Onward(r, o, run);
      RunUnderwayEnds(r, o, run, c');
      run' := Extend(r, o, run, c');
      run' := Complete(r, o, run');
    }
  }

  lemma RunUnderwayEnds(r: Router, o: QueryOptions, run: seq<Config>, c': Config)
    requires Validated(r.rules) && IsRun(r, o, run) && NextStep(r, Last(run), c')
    ensures |run| <= Rank(r, Initial(o))
  {
    RunInvariant(r, o, run);
    NextInvariant(r, o, Last(run), c');
    RankBounds(r, o, c');
  }

  /** A callback that has not finished takes its next step. */
  lemma CallBack(r: Router, c: Config, f: nat) returns (c': Config)
    requires f < |c.walk.futures| && f !in c.signalled
    ensures NextStep(r, c, c') && c'.control == c.control && c'.decider == c.decider
  {
    if f in c.done {
      c' := c.(signalled := c.signalled + {f}, token := true);
      assert Signals(c, c', f);
    } else {
      c' := c.(done := c.done + {f});
      assert Arrives(c, c', f);
    }
  }

  lemma DecisionStays(r: Router, o: QueryOptions, c: Config)
    requires Validated(r.rules) && Kept(r, o, c) && CanMove(r, c) && Decided(c)
    ensures Decided(Move(r, c)) && Move(r, c).decider == c.decider
  {
    if c.control.Checking? { CheckMoveEnds(r, o, c); }
  }

  /** A step that is not a cancellation. */
  lemma Onward(r: Router, o: QueryOptions, run: seq<Config>) returns (c': Config)
    requires Validated(r.rules) && IsRun(r, o, run) && !Last(run).control.Final()
    ensures NextStep(r, Last(run), c') && !c'.control.Cancelled?
    ensures Decided(Last(run)) ==> Decided(c') && c'.decider == Last(run).decider
  {
    var c := Last(run);
    if f :| 0 <= f < |c.walk.futures| && f !in c.signalled {
      c' := CallBack(r, c, f);
    } else {
      AlwaysProgress(r, o, run);
      c' := Move(r, c);
      if Decided(c) {
        RunKept(r, o, run);
        DecisionStays(r, o, c);
      }
    }
  }

  /** The answers to these rules arrive, and nothing else happens. */
  lemma {:induction false} LetArrive(r: Router, o: QueryOptions, run: seq<Config>, n: nat, rules: set<nat>) returns (run': seq<Config>)
    requires IsRun(r, o, run) && n <= |Last(run).walk.futures|
    ensures IsRun(r, o, run')
    ensures var c, c' := Last(run), Last(run');
            && c' == c.(done := c'.done) && c.done <= c'.done
            && (forall k | k in c'.done :: k in c.done || (k < |c.walk.futures| && IndexAt(c.walk, k) in rules))
            && (forall k | 0 <= k < n && IndexAt(c.walk, k) in rules :: k in c'.done)
  {
    if n == 0 {
      run' := run;
    } else {
      run' := LetArrive(r, o, run, n - 1, rules);
      var c := Last(run');
      if IndexAt(c.walk, n - 1) in rules && n - 1 !in c.done {
        assert Arrives(c, c.(done := c.done + {n - 1}), n - 1);
        run' := Extend(r, o, run', c.(done := c.done + {n - 1}));
      }
    }
  }

  // ----- a run that waits for no more than it must -----

  /** A binding that is pending has not been asked. */
  lemma PendingIsBound(w: Walk, rule: Rule, done: set<nat>)
    requires TagsOk(w) && (w.anonymous.Some? ==> w.anonymous.value < |w.futures|)
    ensures var p := PendingBindings(w, rule, done);
            p != [] ==> p[0] < |w.futures| && p[0] !in done && IndexAt(w, p[0]) in Binds(rule, SourcesOf(w))
  {
    PendingTagsFacts(w, rule.tags, done);
    var p, q := PendingBindings(w, rule, done), SourcesOf(w);
    if p != [] && p[0] in PendingTags(w, rule.tags, done) {
      var t :| t in rule.tags && t in w.namedFutures && w.namedFutures[t] == p[0];
      assert t in q.named && q.named[t] == IndexAt(w, p[0]);
    }
  }

  lemma NothingPends(r: Router, w: Walk, rule: Rule, done: set<nat>)
    requires FuturesOk(r, w, done) && NamesOk(r, w) && Binds(rule, SourcesOf(w)) <= Asked(w, done)
    ensures PendingBindings(w, rule, done) == []
  {
    PendingIsBound(w, rule, done);
    var p := PendingBindings(w, rule, done);
    if p != [] { AskedIsDone(r, w, done, p[0]); }
  }

  lemma BoundIsLaunched(r: Router, w: Walk, rule: Rule, x: nat) returns (k: nat)
    requires NamesOk(r, w) && x in Binds(rule, SourcesOf(w))
    ensures k < |w.futures| && IndexAt(w, k) == x
  {
    if t :| t in rule.tags && t in w.namedFutures && x == IndexAt(w, w.namedFutures[t]) {
      k := w.namedFutures[t];
    } else {
      k := w.anonymous.value;
    }
  }

  lemma SettlingKeepsSources(r: Router, w: Walk, done: set<nat>)
    requires WalkOk(r, w, done)
    ensures var w1 := Settle(r, w, done); SourcesOf(w1) == SourcesOf(w) && Asked(w1, done) == Asked(w, done)
  {
    var w1 := Settle(r, w, done);
    SettleKeepsOk(r, w, done);
    assert forall k: nat :: IndexAt(w1, k) == IndexAt(w, k);
    assert SourcesOf(w1).named == SourcesOf(w).named;
  }

  /** A rule whose bindings were all asked suspends the walk only to wait for armed rules, or because it decides. */
  lemma RuleSuspends(r: Router, w: Walk, done: set<nat>)
    requires Validated(r.rules) && WalkOk(r, w, done) && w.index < |r.rules| && ArmedInRange(r, w.armed)
    requires Binds(r.rules[w.index], SourcesOf(w)) <= Asked(w, done) || r.rules[w.index].Races()
    ensures var st := RuleStep(r, w, done);
            st.effect.Suspend? && !st.effect.suspension.Pend? ==>
              && !r.rules[w.index].Races()
              && (Judge(r, w.index, ScopeOf(r, w)).Commit? || (st.effect.suspension.Drain? && HoldsBack(r, w.index, ScopeOf(r, w))))
  {
    var rule, w1 := r.rules[w.index], Settle(r, w, done);
    if !rule.HasBindings() {
      MatchRuns(r, w, done);
    } else {
      SettleKeepsOk(r, w, done);
      if !rule.race {
        SettlingKeepsSources(r, w, done);
        NothingPends(r, w1, rule, done);
        PendingFirst(w1, rule, done);
        MatchRuns(r, w1, done);
      }
    }
  }

  lemma WalkKeepsAsked(r: Router, w: Walk, done: set<nat>)
    requires FuturesOk(r, w, done) && ArmedInRange(r, w.armed)
    ensures Asked(RuleStep(r, w, done).walk, done) == Asked(w, done)
  {
    RuleStepGrows(r, w, done);
    AskedAlike(r, w, RuleStep(r, w, done).walk, done);
  }

  lemma CheckKeepsAsked(r: Router, w: Walk, done: set<nat>)
    requires Validated(r.rules) && WalkOk(r, w, done) && ArmedInRange(r, w.armed)
    ensures var w1 := Settle(r, w, done); Asked(w1.(armed := Sweep(r, w1, done, w.armed).rest), done) == Asked(w, done)
  {
    var w1 := Settle(r, w, done);
    SweepMoveKeeps(r, w, done);
    AskedAlike(r, w, w1.(armed := Sweep(r, w1, done, w.armed).rest), done);
  }

  /** The answers the course past the rule needs, and no others, have been asked; no race rule decides on them. */
  ghost predicate Frugal(r: Router, o: QueryOptions, c: Config, i: nat) {
    && i < |r.rules| && Kept(r, o, c) && c.control.Walking? && c.walk.index == i
    && Asked(c.walk, c.done) <= CourseAt(r, o, i + 1).needed && (r.rules[i].Races() || BindsAt(r, o, i) <= Asked(c.walk, c.done))
    && Reaches(r, o, i + 1) && !Beaten(r, o, i + 1, CourseAt(r, o, i + 1).needed)
  }

  /** Then nobody decides. */
  lemma NobodyYet(r: Router, o: QueryOptions, c: Config, i: nat)
    requires Validated(r.rules) && Frugal(r, o, c, i)
    ensures ArmedInRange(r, c.walk.armed) && WalkMove(r, c).decider == Nobody
  {
    WalkMoveSteered(r, o, c);
    RuleIsGuided(r, o, c.walk, c.done);
    RuleStepRecorded(r, c.walk, c.done);
    var d := WalkMove(r, c).decider;
    assert Passable(r, o, i);
    if d.ByRace? { WinnerIsPassed(r, c.walk, c.done); }
  }

  /** So the walk passes the rule, or waits for the armed rules in front of one that holds back. */
  lemma Strides(r: Router, o: QueryOptions, c: Config, i: nat)
    requires Validated(r.rules) && Frugal(r, o, c, i)
    ensures ArmedInRange(r, c.walk.armed)
    ensures var c' := WalkMove(r, c);
            && Asked(c'.walk, c'.done) == Asked(c.walk, c.done)
            && (|| (c'.control.Walking? && c'.walk.index == i + 1)
                || (c'.control == Checking(Drain) && c'.walk.index == i && c'.walk.armed == c.walk.armed != [] && !r.rules[i].Races()
                    && HoldsBack(r, i, CourseAt(r, o, i).scope)))
  {
    NobodyYet(r, o, c, i);
    WalkKeepsAsked(r, c.walk, c.done);
    RuleStepOk(r, c.walk, c.done);
    RuleStepRecorded(r, c.walk, c.done);
    RuleSuspends(r, c.walk, c.done);
    assert Passable(r, o, i);
  }

  lemma NoneWins(r: Router, o: QueryOptions, c: Config)
    requires Validated(r.rules) && Kept(r, o, c) && c.control == Checking(Drain) && ArmedInRange(r, c.walk.armed)
    requires Unrivalled(r, o, c.walk.index)
    ensures Sweep(r, Settle(r, c.walk, c.done), c.done, c.walk.armed).winner.None?
  {
    var s := Sweep(r, Settle(r, c.walk, c.done), c.done, c.walk.armed);
    if s.winner.Some? {
      ArmedBelowIndex(r, o, c);
      SweepMembers(r, Settle(r, c.walk, c.done), c.done, c.walk.armed);
      CheckMoveWins(r, o, c);
    }
  }

  lemma SomeWait(armed: seq<Armed>, rest: seq<Armed>, done: set<nat>)
    requires rest != [] && forall a | a in rest :: a in armed && !Ready(a, done)
    ensures exists a :: a in armed && !Ready(a, done)
  {
    assert rest[0] in rest;
  }

  /** If the armed rules are ready and none decides, draining leaves none. */
  lemma DrainedAway(r: Router, o: QueryOptions, c: Config)
    requires Validated(r.rules) && Kept(r, o, c) && c.control == Checking(Drain)
    requires Unrivalled(r, o, c.walk.index) && forall a | a in c.walk.armed :: Ready(a, c.done)
    ensures ArmedInRange(r, c.walk.armed)
    ensures var c' := CheckMove(r, c);
            && c'.control.Walking? && c'.walk.index == c.walk.index && c'.walk.armed == []
            && Asked(c'.walk, c'.done) == Asked(c.walk, c.done)
  {
    ArmedRulesInRange(r, c.walk, c.done);
    NoneWins(r, o, c);
    CheckMoveWaits(r, o, c);
    if CheckMove(r, c).walk.armed != [] { SomeWait(c.walk.armed, CheckMove(r, c).walk.armed, c.done); }
    SweepMoveKeeps(r, c.walk, c.done);
    CheckKeepsAsked(r, c.walk, c.done);
  }

  /** Once the answers a held-back rule needs have arrived, every armed rule is ready. */
  lemma ArmedAreReady(r: Router, o: QueryOptions, c: Config, i: nat)
    requires Validated(r.rules) && i < |r.rules| && !r.rules[i].Races() && Kept(r, o, c) && c.control.Walking? && c.walk.index == i
    requires HoldsBack(r, i, CourseAt(r, o, i).scope)
    requires forall k | 0 <= k < |c.walk.futures| && IndexAt(c.walk, k) in CourseAt(r, o, i + 1).needed :: k in c.done
    ensures forall a | a in c.walk.armed :: Ready(a, c.done)
  {
    forall a | a in c.walk.armed ensures Ready(a, c.done) {
      assert ArmedOk(r, c.walk, c.done, a) && Tied(r, o, c.walk, a) && Sourced(r, c.walk, a);
      BoundIsRaced(r, o, a.index, i);
      forall f | f in a.futures ensures f in c.done { BoundByArmed(r, o, c.walk, c.done, a, f); }
    }
  }

  lemma BoundHaveArrived(r: Router, o: QueryOptions, c: Config, j: nat)
    requires j < |r.rules| && Kept(r, o, c) && c.control.Walking? && c.walk.index == j
    requires forall k | 0 <= k < |c.walk.futures| && IndexAt(c.walk, k) in BindsAt(r, o, j) :: k in c.done
    ensures BindsAt(r, o, j) <= Asked(c.walk, c.done)
  {
    forall x | x in BindsAt(r, o, j) ensures x in Asked(c.walk, c.done) {
      var k := BoundIsLaunched(r, c.walk, r.rules[j], x);
      assert k in c.done;
    }
  }

  /** The answers the course past the rule needs arrive. */
  lemma Prepare(r: Router, o: QueryOptions, run: seq<Config>, i: nat) returns (run': seq<Config>)
    requires Validated(r.rules) && IsRun(r, o, run) && i < |r.rules| && Last(run).control.Walking? && Last(run).walk.index == i
    requires Asked(Last(run).walk, Last(run).done) <= CourseAt(r, o, i).needed
    requires Reaches(r, o, i + 1) && !Beaten(r, o, i + 1, CourseAt(r, o, i + 1).needed)
    ensures IsRun(r, o, run') && Frugal(r, o, Last(run'), i)
    ensures forall k | 0 <= k < |Last(run').walk.futures| && IndexAt(Last(run').walk, k) in CourseAt(r, o, i + 1).needed :: k in Last(run').done
  {
    var needed := CourseAt(r, o, i + 1).needed;
    run' := LetArrive(r, o, run, |Last(run).walk.futures|, needed);
    var c := Last(run');
    RunKept(r, o, run');
    NeededGrows(r, o, i, i + 1);
    assert Asked(c.walk, c.done) <= needed;
    if !r.rules[i].Races() { BoundHaveArrived(r, o, c, i); }
  }

  /** A walk that waits in front of a rule that holds back gets past it. */
  lemma DrainFrugally(r: Router, o: QueryOptions, run: seq<Config>, i: nat) returns (run': seq<Config>)
    requires Validated(r.rules) && IsRun(r, o, run) && Last(run).control == Checking(Drain) && Last(run).walk.index == i < |r.rules|
    requires Asked(Last(run).walk, Last(run).done) <= CourseAt(r, o, i + 1).needed && BindsAt(r, o, i) <= Asked(Last(run).walk, Last(run).done)
    requires Reaches(r, o, i + 1) && !Beaten(r, o, i + 1, CourseAt(r, o, i + 1).needed)
    requires Unrivalled(r, o, i) && forall a | a in Last(run).walk.armed :: Ready(a, Last(run).done)
    ensures IsRun(r, o, run') && Last(run').control.Walking? && Last(run').walk.index == i + 1
    ensures Asked(Last(run').walk, Last(run').done) <= CourseAt(r, o, i + 1).needed
  {
    RunKept(r, o, run);
    DrainedAway(r, o, Last(run));
    run' := Extend(r, o, run, CheckMove(r, Last(run)));
    RunKept(r, o, run');
    var c := Last(run');
    Strides(r, o, c, i);
    run' := Extend(r, o, run', WalkMove(r, c));
  }

  /** From one rule to the next. */
  lemma StepFrugally(r: Router, o: QueryOptions, run: seq<Config>, i: nat) returns (run': seq<Config>)
    requires Validated(r.rules) && IsRun(r, o, run) && i < |r.rules| && Last(run).control.Walking? && Last(run).walk.index == i
    requires Asked(Last(run).walk, Last(run).done) <= CourseAt(r, o, i).needed
    requires Reaches(r, o, i + 1) && !Beaten(r, o, i + 1, CourseAt(r, o, i + 1).needed)
    ensures IsRun(r, o, run') && Last(run').control.Walking? && Last(run').walk.index == i + 1
    ensures Asked(Last(run').walk, Last(run').done) <= CourseAt(r, o, i + 1).needed
  {
    run' := Prepare(r, o, run, i);
    var c := Last(run');
    Strides(r, o, c, i);
    run' := Extend(r, o, run', WalkMove(r, c));
    if !Last(run').control.Walking? {
      assert Passable(r, o, i);
      ArmedAreReady(r, o, c, i);
      run' := DrainFrugally(r, o, run', i);
    }
  }

  lemma BeatenByMore(r: Router, o: QueryOptions, i: nat, j: nat, answers: set<nat>, more: set<nat>)
    requires i <= j && answers <= more && Beaten(r, o, i, answers)
    ensures Beaten(r, o, j, more)
  {
    var k :| 0 <= k < i && DecidingRace(r, o, k) && BindsAt(r, o, k) <= answers;
    assert BindsAt(r, o, k) <= more;
  }

  lemma UnbeatenBefore(r: Router, o: QueryOptions, i: nat)
    requires i < |r.rules| && !Beaten(r, o, i + 1, CourseAt(r, o, i + 1).needed)
    ensures !Beaten(r, o, i, CourseAt(r, o, i).needed)
  {
    NeededGrows(r, o, i, i + 1);
    if Beaten(r, o, i, CourseAt(r, o, i).needed) { BeatenByMore(r, o, i, i + 1, CourseAt(r, o, i).needed, CourseAt(r, o, i + 1).needed); }
  }

  /** A run up to a rule in which only the answers it needs have arrived. */
  lemma {:induction false} ReachFrugally(r: Router, o: QueryOptions, i: nat) returns (run: seq<Config>)
    requires Validated(r.rules) && Reaches(r, o, i) && !Beaten(r, o, i, CourseAt(r, o, i).needed)
    ensures IsRun(r, o, run) && Last(run).control.Walking? && Last(run).walk.index == i
    ensures Asked(Last(run).walk, Last(run).done) <= CourseAt(r, o, i).needed
  {
    if i == 0 {
      run := [Initial(o)];
    } else {
      UnbeatenBefore(r, o, i - 1);
      run := ReachFrugally(r, o, i - 1);
      run := StepFrugally(r, o, run, i - 1);
    }
  }

  /** A race rule with nothing pending is not left armed. */
  lemma ArmIsJudged(r: Router, w: Walk, done: set<nat>)
    requires ArmedInRange(r, w.armed) && w.index < |r.rules| && (forall a | a in w.armed :: a.index < w.index)
    requires PendingBindings(w, r.rules[w.index], done) == [] && ArmStep(r, w, done).decider == Nobody
    ensures forall a | a in ArmStep(r, w, done).walk.armed :: a.index != w.index
  {
    var armed := w.armed + [NewArmed(w, r.rules[w.index], done)];
    SweepMembers(r, w, done, armed);
    SweepLeavesWaiting(r, w, done, armed);
  }

  lemma RaceIsJudged(r: Router, w: Walk, done: set<nat>)
    requires WalkOk(r, w, done) && ArmedInRange(r, w.armed) && w.index < |r.rules| && r.rules[w.index].Races()
    requires Binds(r.rules[w.index], SourcesOf(w)) <= Asked(w, done) && RuleStep(r, w, done).decider == Nobody
    ensures forall a | a in RuleStep(r, w, done).walk.armed :: a.index != w.index
  {
    var w1 := Settle(r, w, done);
    SettleKeepsOk(r, w, done);
    SettlingKeepsSources(r, w, done);
    NothingPends(r, w1, r.rules[w.index], done);
    assert forall a | a in w1.armed :: a.index < w1.index;
    assert RuleStep(r, w, done) == ArmStep(r, w1, done);
    ArmIsJudged(r, w1, done);
  }

  lemma JudgedIsPassed(r: Router, o: QueryOptions, w: Walk, done: set<nat>, j: nat)
    requires Passed(r, o, w, done) && j < w.index && j < |r.rules| && r.rules[j].Races() && forall a | a in w.armed :: a.index != j
    ensures !DecidingRace(r, o, j)
  {
    assert Standing(r, o, w, done, j);
  }

  lemma RaceIsNotLeft(r: Router, o: QueryOptions, w: Walk, done: set<nat>)
    requires Validated(r.rules) && WalkOk(r, w, done) && OnCourse(r, o, w, done) && AllSourced(r, w) && ArmedInRange(r, w.armed)
    requires w.index < |r.rules| && r.rules[w.index].Races()
    requires Binds(r.rules[w.index], SourcesOf(w)) <= Asked(w, done) && RuleStep(r, w, done).decider == Nobody
    ensures !DecidingRace(r, o, w.index)
  {
    RuleIsGuided(r, o, w, done);
    RuleStepOk(r, w, done);
    RuleStepRecorded(r, w, done);
    RuleSuspends(r, w, done);
    RaceIsJudged(r, w, done);
    JudgedIsPassed(r, o, RuleStep(r, w, done).walk, done, w.index);
  }

  /** With its answers there, and nothing before it that decides on those, a race rule decides. */
  lemma RaceWins(r: Router, o: QueryOptions, c: Config, j: nat)
    requires Validated(r.rules) && CanDecide(r, o, ByRace(j)) && Kept(r, o, c) && c.control.Walking? && c.walk.index == j
    requires BindsAt(r, o, j) <= Asked(c.walk, c.done) <= CourseAt(r, o, j).needed + BindsAt(r, o, j)
    ensures ArmedInRange(r, c.walk.armed) && WalkMove(r, c).decider == ByRace(j) && Decided(WalkMove(r, c))
  {
    WalkMoveSteered(r, o, c);
    RuleStepRecorded(r, c.walk, c.done);
    var d := WalkMove(r, c).decider;
    if d == Nobody { RaceIsNotLeft(r, o, c.walk, c.done); }
    if d.ByRace? { WinnerIsPassed(r, c.walk, c.done); }
  }

  /** A run up to a race rule in which its answers have arrived, and those it needs to be reached. */
  lemma PrepareRace(r: Router, o: QueryOptions, j: nat) returns (run: seq<Config>)
    requires Validated(r.rules) && CanDecide(r, o, ByRace(j))
    ensures IsRun(r, o, run) && Last(run).control.Walking? && Last(run).walk.index == j
    ensures BindsAt(r, o, j) <= Asked(Last(run).walk, Last(run).done) <= CourseAt(r, o, j).needed + BindsAt(r, o, j)
  {
    var needed, b := CourseAt(r, o, j).needed, BindsAt(r, o, j);
    if Beaten(r, o, j, needed) { BeatenByMore(r, o, j, j, needed, needed + b); }
    run := ReachFrugally(r, o, j);
    run := LetArrive(r, o, run, |Last(run).walk.futures|, b);
    RunKept(r, o, run);
    var c := Last(run);
    BoundHaveArrived(r, o, c, j);
  }

  lemma RaceStep(r: Router, o: QueryOptions, run: seq<Config>, j: nat) returns (run': seq<Config>)
    requires Validated(r.rules) && CanDecide(r, o, ByRace(j))
    requires IsRun(r, o, run) && Last(run).control.Walking? && Last(run).walk.index == j
    requires BindsAt(r, o, j) <= Asked(Last(run).walk, Last(run).done) <= CourseAt(r, o, j).needed + BindsAt(r, o, j)
    ensures IsRun(r, o, run') && Decided(Last(run')) && Last(run').decider == ByRace(j)
  {
    RunKept(r, o, run);
    RaceWins(r, o, Last(run), j);
    run' := Extend(r, o, run, WalkMove(r, Last(run)));
  }

  lemma RunForRace(r: Router, o: QueryOptions, j: nat) returns (run: seq<Config>)
    requires Validated(r.rules) && CanDecide(r, o, ByRace(j))
    ensures IsRun(r, o, run) && Last(run).control.Finished? && Last(run).decider == ByRace(j)
  {
    run := PrepareRace(r, o, j);
    run := RaceStep(r, o, run, j);
    run := Complete(r, o, run);
  }

  // ----- the theorems -----

  ghost predicate EndsBy(r: Router, o: QueryOptions, run: seq<Config>, d: Decider) {
    IsRun(r, o, run) && Last(run).control.Finished? && Last(run).decider == d
  }

  ghost predicate EndsWith(r: Router, o: QueryOptions, run: seq<Config>, out: Outcome) {
    IsRun(r, o, run) && Last(run).control == Finished(out)
  }

  /** Whoever decides a run can decide, and the outcome is theirs. */
  lemma EndIsListed(r: Router, o: QueryOptions, run: seq<Config>)
    requires Validated(r.rules) && IsRun(r, o, run) && Last(run).control.Finished?
    ensures CanDecide(r, o, Last(run).decider) && Last(run).control.outcome == DecidedOutcome(r, o, Last(run).decider)
  {
    RunKept(r, o, run);
  }

  /** And whoever can decide does decide some run. */
  lemma ListedHasRun(r: Router, o: QueryOptions, d: Decider) returns (run: seq<Config>)
    requires Validated(r.rules) && CanDecide(r, o, d)
    ensures EndsBy(r, o, run, d) && EndsWith(r, o, run, DecidedOutcome(r, o, d))
  {
    if d.ByRace? {
      run := RunForRace(r, o, d.index);
    } else {
      run := Complete(r, o, [Initial(o)]);
      EndIsListed(r, o, run);
      RuleDecidesAlone(r, o, d, Last(run).decider);
    }
    EndIsListed(r, o, run);
  }

  /** The rules that decide some run of the exchange are exactly those that can decide by the list. */
  lemma DecidersExactly(r: Router, o: QueryOptions, d: Decider)
    requires Validated(r.rules)
    ensures (exists run :: EndsBy(r, o, run, d)) <==> CanDecide(r, o, d)
  {
    if run :| EndsBy(r, o, run, d) { EndIsListed(r, o, run); }
    if CanDecide(r, o, d) { var run := ListedHasRun(r, o, d); }
  }

  /** The outcomes of the runs of an exchange are exactly the outcomes of those rules. */
  lemma OutcomesExactly(r: Router, o: QueryOptions, out: Outcome)
    requires Validated(r.rules)
    ensures (exists run :: EndsWith(r, o, run, out)) <==> (exists d :: CanDecide(r, o, d) && DecidedOutcome(r, o, d) == out)
  {
    if run :| EndsWith(r, o, run, out) { EndIsListed(r, o, run); }
    if d :| CanDecide(r, o, d) && DecidedOutcome(r, o, d) == out { var run := ListedHasRun(r, o, d); }
  }

  /** There is always one, and all are within the bound. */
  lemma ListedIsAllowed(r: Router, o: QueryOptions)
    requires Validated(r.rules)
    ensures exists d :: CanDecide(r, o, d)
    ensures forall d | CanDecide(r, o, d) :: DecidedOutcome(r, o, d) in AllowedOutcomes(r, o)
  {
    var run := Complete(r, o, [Initial(o)]);
    EndIsListed(r, o, run);
    forall d | CanDecide(r, o, d) ensures DecidedOutcome(r, o, d) in AllowedOutcomes(r, o) {
      var run := ListedHasRun(r, o, d);
      ExchangeIsAllowed(r, o, run);
    }
  }
}
