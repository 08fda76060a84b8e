/** Which race rule can win: a race rule is always judged before a later one that waits for all it waits for. */
module RaceOrder {
  import opened Optional
  import opened DnsRules
  import opened RuleWalk
  import opened WalkInvariant
  import opened WalkSteps
  import opened WalkMachine
  import opened WalkRuns
  import opened WalkTheorems

  /** A rule that may replace the anonymous response. */
  predicate Renews(rule: Rule) { !rule.Races() && rule.action.Evaluate? && rule.action.tag == "" }

  /** Nothing between the two rules replaces the anonymous response. */
  predicate Undisturbed(r: Router, k: nat, j: nat) { forall m | k < m < j && m < |r.rules| :: !Renews(r.rules[m]) }

  /** Both race, the first is listed earlier, and the second binds every answer the first binds. */
  predicate Precedes(r: Router, k: nat, j: nat) {
    && k < j < |r.rules| && r.rules[k].Races() && r.rules[j].Races()
    && (r.rules[k].anonymous ==> r.rules[j].anonymous && Undisturbed(r, k, j))
    && forall t | t in r.rules[k].tags :: t in r.rules[j].tags
  }

  predicate BindsAnonymous(r: Router, a: Armed) { a.index < |r.rules| && r.rules[a.index].anonymous }

  /** Armed rules that bind the anonymous response, with nothing between that replaces it, bind the same one. */
  ghost predicate Agree(r: Router, armed: seq<Armed>) {
    forall a, b | a in armed && b in armed && a.index < b.index && BindsAnonymous(r, a) && BindsAnonymous(r, b) && Undisturbed(r, a.index, b.index) ::
      a.anonymous == b.anonymous
  }

  /** And with nothing replacing it since, they bind the current one. */
  ghost predicate Current(r: Router, anonymous: Option<nat>, index: nat, armed: seq<Armed>) {
    forall a | a in armed && BindsAnonymous(r, a) && Undisturbed(r, a.index, index) :: a.anonymous == anonymous
  }

  /** An armed rule waits only for what it binds. */
  ghost predicate Sourced(r: Router, w: Walk, a: Armed) {
    && a.index < |r.rules|
    && forall f | f in a.futures ::
         f < |w.futures| && (w.futures[f].tag in r.rules[a.index].tags || a.anonymous == Some(f))
  }

  ghost predicate AllSourced(r: Router, w: Walk) { forall a | a in w.armed :: Sourced(r, w, a) }

  ghost predicate Known(r: Router, w: Walk) {
    AllSourced(r, w) && Agree(r, w.armed) && Current(r, w.anonymous, w.index, w.armed)
  }

  lemma GrowthKeepsSourced(r: Router, w: Walk, w': Walk, a: Armed)
    requires Grew(r, w, w') && Sourced(r, w, a)
    ensures Sourced(r, w', a)
  {
  }

  lemma NewArmedSourced(r: Router, w: Walk, done: set<nat>)
    requires w.index < |r.rules| && TagsOk(w) && (w.anonymous.Some? ==> w.anonymous.value < |w.futures|)
    ensures Sourced(r, w, NewArmed(w, r.rules[w.index], done))
  {
    PendingTagsFacts(w, r.rules[w.index].tags, done);
  }

  /** Armed after a step: what was armed before, and the current rule. */
  lemma ArmStepArms(r: Router, w: Walk, done: set<nat>)
    requires w.index < |r.rules| && ArmedInRange(r, w.armed)
    ensures forall a | a in ArmStep(r, w, done).walk.armed :: a in w.armed || a == NewArmed(w, r.rules[w.index], done)
  {
    SweepMembers(r, w, done, w.armed + [NewArmed(w, r.rules[w.index], done)]);
  }

  lemma MatchStepArms(r: Router, w: Walk, done: set<nat>)
    requires w.index < |r.rules|
    ensures MatchStep(r, w, done).walk.armed == w.armed
  {
  }

  lemma RuleStepArms(r: Router, w: Walk, done: set<nat>)
    requires ArmedInRange(r, w.armed)
    ensures forall a | a in RuleStep(r, w, done).walk.armed ::
              a in w.armed || (w.index < |r.rules| && a == NewArmed(Settle(r, w, done), r.rules[w.index], done))
  {
    if w.index < |r.rules| {
      var rule, w1 := r.rules[w.index], Settle(r, w, done);
      SettleKeeps(r, w, done, |w.futures|);
      if !rule.HasBindings() {
        MatchStepArms(r, w, done);
      } else if rule.race {
        ArmStepArms(r, w1, done);
      } else if PendingBindings(w1, rule, done) == [] {
        MatchStepArms(r, w1, done);
      }
    }
  }

  lemma RuleStepSourced(r: Router, w: Walk, done: set<nat>)
    requires WalkOk(r, w, done) && ArmedInRange(r, w.armed) && AllSourced(r, w)
    ensures AllSourced(r, RuleStep(r, w, done).walk)
  {
    var w1, w' := Settle(r, w, done), RuleStep(r, w, done).walk;
    SettleKeepsOk(r, w, done);
    RuleStepGrows(r, w, done);
    RuleStepArms(r, w, done);
    forall a | a in w'.armed ensures Sourced(r, w', a) {
      if a !in w.armed {
        NewArmedSourced(r, w1, done);
        assert Sourced(r, w, a);
      }
      GrowthKeepsSourced(r, w, w', a);
    }
  }

  /** Only an untagged `evaluate` replaces the anonymous response. */
  lemma MatchStepAnonymous(r: Router, w: Walk, done: set<nat>)
    requires w.index < |r.rules| && !r.rules[w.index].Races()
    ensures MatchStep(r, w, done).walk.anonymous == w.anonymous || Renews(r.rules[w.index])
    ensures MatchStep(r, w, done).walk.index == if MatchStep(r, w, done).effect.Continue? then w.index + 1 else w.index
  {
    ActStepAnonymous(r, w, done);
    ActStepIndex(r, w, done);
  }

  lemma ActStepAnonymous(r: Router, w: Walk, done: set<nat>)
    requires w.index < |r.rules|
    ensures var a := r.rules[w.index].action; ActStep(r, w, done).walk.anonymous == w.anonymous || (a.Evaluate? && a.tag == "")
  {
  }

  lemma ActStepIndex(r: Router, w: Walk, done: set<nat>)
    requires w.index < |r.rules|
    ensures var st := ActStep(r, w, done); st.walk.index == if st.effect.Continue? then w.index + 1 else w.index
  {
  }

  lemma RuleStepAnonymous(r: Router, w: Walk, done: set<nat>)
    requires ArmedInRange(r, w.armed) && RuleStep(r, w, done).decider == Nobody
    ensures var w' := RuleStep(r, w, done).walk;
            && (w'.index == w.index + 1 ==> w.index < |r.rules| && (w'.anonymous == w.anonymous || Renews(r.rules[w.index])))
            && (w'.index != w.index + 1 ==> w'.index == w.index && w'.anonymous == w.anonymous && w'.armed == w.armed)
  {
    if w.index < |r.rules| {
      var rule, w1 := r.rules[w.index], Settle(r, w, done);
      SettleKeeps(r, w, done, |w.futures|);
      if !rule.HasBindings() {
        MatchStepAnonymous(r, w, done);
        MatchStepArms(r, w, done);
      } else if !rule.race && PendingBindings(w1, rule, done) == [] {
        MatchStepAnonymous(r, w1, done);
        MatchStepArms(r, w1, done);
      }
    }
  }

  lemma NewArmedAnonymous(r: Router, w: Walk, done: set<nat>)
    requires w.index < |r.rules|
    ensures var n := NewArmed(Settle(r, w, done), r.rules[w.index], done);
            n.index == w.index && (r.rules[w.index].anonymous ==> n.anonymous == w.anonymous)
  {
    SettleKeeps(r, w, done, |w.futures|);
  }

  /** Adding the current rule keeps the agreement. */
  lemma ArmingAgrees(r: Router, w: Walk, armed: seq<Armed>, n: Armed)
    requires Agree(r, w.armed) && Current(r, w.anonymous, w.index, w.armed) && (forall a | a in w.armed :: a.index < w.index)
    requires n.index == w.index && (BindsAnonymous(r, n) ==> n.anonymous == w.anonymous)
    requires forall a | a in armed :: a in w.armed || a == n
    ensures Agree(r, armed)
  {
  }

  lemma RuleStepKnown(r: Router, w: Walk, done: set<nat>)
    requires WalkOk(r, w, done) && ArmedInRange(r, w.armed) && Known(r, w) && RuleStep(r, w, done).decider == Nobody
    ensures Known(r, RuleStep(r, w, done).walk)
  {
    var w' := RuleStep(r, w, done).walk;
    RuleStepSourced(r, w, done);
    RuleStepAnonymous(r, w, done);
    if w'.index == w.index + 1 {
      RuleStepArms(r, w, done);
      NewArmedAnonymous(r, w, done);
      var n := NewArmed(Settle(r, w, done), r.rules[w.index], done);
      assert forall a | a in w.armed :: a.index < w.index;
      ArmingAgrees(r, w, w'.armed, n);
      forall a | a in w'.armed && BindsAnonymous(r, a) && Undisturbed(r, a.index, w'.index) ensures a.anonymous == w'.anonymous {
        ArmedByRace(r, w, done, a);
        assert Undisturbed(r, a.index, w.index);
        assert a.index < w.index ==> !Renews(r.rules[w.index]);
      }
    }
  }

  /** A rule that is newly armed races. */
  lemma ArmedByRace(r: Router, w: Walk, done: set<nat>, a: Armed)
    requires ArmedInRange(r, w.armed) && a in RuleStep(r, w, done).walk.armed
    ensures a in w.armed || (w.index < |r.rules| && r.rules[w.index].Races() && !Renews(r.rules[w.index]))
  {
    if w.index < |r.rules| && !r.rules[w.index].Races() {
      var rule, w1 := r.rules[w.index], Settle(r, w, done);
      SettleKeeps(r, w, done, |w.futures|);
      if !rule.HasBindings() { MatchStepArms(r, w, done); } else if PendingBindings(w1, rule, done) == [] { MatchStepArms(r, w1, done); }
    }
  }

  /** What the later rule waits for has arrived, so all the earlier one waits for has. */
  lemma PrecederIsReady(r: Router, w: Walk, done: set<nat>, a: Armed, b: Armed)
    requires Validated(r.rules) && TagsOk(w) && ArmedOk(r, w, done, a) && ArmedOk(r, w, done, b)
    requires Sourced(r, w, a) && Ready(b, done) && Precedes(r, a.index, b.index)
    requires r.rules[a.index].anonymous ==> a.anonymous == b.anonymous
    ensures Ready(a, done)
  {
    forall f | f in a.futures ensures f in done {
      if a.anonymous != Some(f) {
        var t := w.futures[f].tag;
        assert t in r.rules[a.index].tags && t != "";
        assert t in w.namedFutures && w.namedFutures[t] == f;
      }
    }
  }

  /** In a sweep with a winner, every armed rule that precedes the winner was judged and missed. */
  lemma SweepJudgesPreceders(r: Router, w: Walk, done: set<nat>, armed: seq<Armed>, a: Armed)
    requires Validated(r.rules) && TagsOk(w) && ArmedInRange(r, armed) && Ascending(armed)
    requires (forall b | b in armed :: ArmedOk(r, w, done, b)) && Agree(r, armed)
    requires Sweep(r, w, done, armed).winner.Some?
    requires a in armed && Sourced(r, w, a) && Precedes(r, a.index, Sweep(r, w, done, armed).winner.value.0.index)
    ensures a in Sweep(r, w, done, armed).missed
  {
    var s := Sweep(r, w, done, armed);
    SweepMembers(r, w, done, armed);
    assert BindsAnonymous(r, a) ==> BindsAnonymous(r, s.winner.value.0) && a.anonymous == s.winner.value.0.anonymous;
    PrecederIsReady(r, w, done, a, s.winner.value.0);
    SweepPriority(r, w, done, armed, a);
  }

  lemma CheckJudgesPreceders(r: Router, w: Walk, done: set<nat>, a: Armed)
    requires Validated(r.rules) && WalkOk(r, w, done) && ArmedInRange(r, w.armed) && Known(r, w) && a in w.armed
    requires var s := Sweep(r, Settle(r, w, done), done, w.armed);
             s.winner.Some? && Precedes(r, a.index, s.winner.value.0.index)
    ensures a in Sweep(r, Settle(r, w, done), done, w.armed).missed
  {
    var w1 := Settle(r, w, done);
    SettleKeepsOk(r, w, done);
    assert Sourced(r, w, a);
    assert Sourced(r, w1, a);
    SweepJudgesPreceders(r, w1, done, w.armed, a);
  }

  lemma ArmJudgesPreceders(r: Router, w: Walk, done: set<nat>, a: Armed)
    requires Validated(r.rules) && WalkOk(r, w, done) && ArmedInRange(r, w.armed) && Known(r, w) && a in w.armed
    requires w.index < |r.rules| && r.rules[w.index].Races() && ArmStep(r, w, done).decider.ByRace?
    requires Precedes(r, a.index, ArmStep(r, w, done).decider.index)
    ensures a in ArmStep(r, w, done).missed
  {
    var armed := w.armed + [NewArmed(w, r.rules[w.index], done)];
    ArmingKeepsOrder(r, w, done);
    assert a in armed && Sourced(r, w, a);
    assert forall b | b in w.armed :: b.index < w.index;
    ArmingAgrees(r, w, armed, NewArmed(w, r.rules[w.index], done));
    SweepJudgesPreceders(r, w, done, armed, a);
  }

  lemma ArmingKeepsOrder(r: Router, w: Walk, done: set<nat>)
    requires Validated(r.rules) && WalkOk(r, w, done) && w.index < |r.rules| && r.rules[w.index].Races()
    ensures var armed := w.armed + [NewArmed(w, r.rules[w.index], done)];
            Ascending(armed) && forall b | b in armed :: ArmedOk(r, w, done, b)
  {
    var armed := w.armed + [NewArmed(w, r.rules[w.index], done)];
    NewArmedOk(r, w, done);
    forall b | b in armed ensures ArmedOk(r, w, done, b) { if b in w.armed { assert ArmedOk(r, w, done, b); } }
    assert forall b | b in w.armed :: b.index < w.index;
  }

  lemma RuleJudgesPreceders(r: Router, w: Walk, done: set<nat>, a: Armed)
    requires Validated(r.rules) && WalkOk(r, w, done) && ArmedInRange(r, w.armed) && Known(r, w) && a in w.armed
    requires RuleStep(r, w, done).decider.ByRace? && Precedes(r, a.index, RuleStep(r, w, done).decider.index)
    ensures a in RuleStep(r, w, done).missed
  {
    var w1 := Settle(r, w, done);
    SettleKeepsOk(r, w, done);
    RacesDecideWhenArmed(r, w, done);
    forall b | b in w1.armed ensures Sourced(r, w1, b) { assert Sourced(r, w, b); }
    ArmJudgesPreceders(r, w1, done, a);
  }

  lemma RacesDecideWhenArmed(r: Router, w: Walk, done: set<nat>)
    requires ArmedInRange(r, w.armed) && RuleStep(r, w, done).decider.ByRace?
    ensures w.index < |r.rules| && r.rules[w.index].Races()
    ensures Settle(r, w, done).index == w.index && ArmedInRange(r, Settle(r, w, done).armed)
    ensures RuleStep(r, w, done) == ArmStep(r, Settle(r, w, done), done)
  {
    SettleKeeps(r, w, done, |w.futures|);
  }

  // ----- runs -----

  ghost predicate Judged(r: Router, c: Config, k: nat) {
    exists a :: a in c.missed && a.index == k && Lost(r, c.walk, c.done, a)
  }

  ghost predicate Ordered(r: Router, c: Config) {
    && (c.decider == Nobody ==> Known(r, c.walk))
    && (c.decider.ByRace? ==> forall k | Precedes(r, k, c.decider.index) :: exists a :: a in c.missed && a.index == k)
  }

  /** A race rule on record stays on record, and an armed one gets there if the step judges it. */
  lemma OnRecord(armed: seq<Armed>, missed: seq<Armed>, more: seq<Armed>, k: nat)
    requires Accounted(armed, missed, k) && forall a | a in armed && a.index == k :: a in more
    ensures exists a :: a in missed + more && a.index == k
  {
    if a :| a in armed && a.index == k {
      assert a in missed + more;
    } else {
      var a :| a in missed && a.index == k;
      assert a in missed + more;
    }
  }

  lemma WalkMovePreceders(r: Router, o: QueryOptions, c: Config, k: nat)
    requires Validated(r.rules) && Invariant(r, o, c) && Known(r, c.walk) && c.control.Walking? && ArmedInRange(r, c.walk.armed)
    requires var st := RuleStep(r, c.walk, c.done); st.decider.ByRace? && Precedes(r, k, st.decider.index)
    ensures exists a :: a in c.missed + RuleStep(r, c.walk, c.done).missed && a.index == k
  {
    var st := RuleStep(r, c.walk, c.done);
    WinnerIsPassed(r, c.walk, c.done);
    assert Accounted(c.walk.armed, c.missed, k);
    forall a | a in c.walk.armed && a.index == k ensures a in st.missed { RuleJudgesPreceders(r, c.walk, c.done, a); }
    OnRecord(c.walk.armed, c.missed, st.missed, k);
  }

  lemma WalkMoveOrdered(r: Router, o: QueryOptions, c: Config)
    requires Validated(r.rules) && Invariant(r, o, c) && Ordered(r, c) && c.control.Walking? && ArmedInRange(r, c.walk.armed)
    ensures Ordered(r, WalkMove(r, c))
  {
    var st := RuleStep(r, c.walk, c.done);
    assert c.decider == Nobody;
    if st.decider == Nobody { RuleStepKnown(r, c.walk, c.done); }
    var c' := WalkMove(r, c);
    assert c'.walk == st.walk && c'.missed == c.missed + st.missed && c'.decider == st.decider;
    if st.decider.ByRace? {
      forall k | Precedes(r, k, st.decider.index) ensures exists a :: a in c'.missed && a.index == k {
        WalkMovePreceders(r, o, c, k);
      }
    }
  }

  /** A race rule that wins is the current one or an earlier one. */
  lemma WinnerIsPassed(r: Router, w: Walk, done: set<nat>)
    requires WalkOk(r, w, done) && ArmedInRange(r, w.armed) && RuleStep(r, w, done).decider.ByRace?
    ensures RuleStep(r, w, done).decider.index <= w.index
  {
    var w1 := Settle(r, w, done);
    SettleKeepsOk(r, w, done);
    RacesDecideWhenArmed(r, w, done);
    SweepMembers(r, w1, done, w1.armed + [NewArmed(w1, r.rules[w.index], done)]);
  }

  lemma CheckMovePreceders(r: Router, o: QueryOptions, c: Config, k: nat)
    requires Validated(r.rules) && Invariant(r, o, c) && c.decider == Nobody && Known(r, c.walk)
    requires c.control.Checking? && ArmedInRange(r, c.walk.armed)
    requires var s := Sweep(r, Settle(r, c.walk, c.done), c.done, c.walk.armed);
             s.winner.Some? && Precedes(r, k, s.winner.value.0.index)
    ensures exists a :: a in c.missed + Sweep(r, Settle(r, c.walk, c.done), c.done, c.walk.armed).missed && a.index == k
  {
    var w1 := Settle(r, c.walk, c.done);
    var s := Sweep(r, w1, c.done, c.walk.armed);
    SweepMembers(r, w1, c.done, c.walk.armed);
    ArmedBelowIndex(r, o, c);
    assert Accounted(c.walk.armed, c.missed, k);
    forall a | a in c.walk.armed && a.index == k ensures a in s.missed { CheckJudgesPreceders(r, c.walk, c.done, a); }
    OnRecord(c.walk.armed, c.missed, s.missed, k);
  }

  lemma CheckMoveSources(r: Router, o: QueryOptions, c: Config)
    requires Validated(r.rules) && Invariant(r, o, c) && Known(r, c.walk) && c.control.Checking? && ArmedInRange(r, c.walk.armed)
    ensures Known(r, CheckMove(r, c).walk)
  {
    SettleKeeps(r, c.walk, c.done, |c.walk.futures|);
    SweepMoveKeeps(r, c.walk, c.done);
    FewerAreKnown(r, c.walk, CheckMove(r, c).walk);
  }

  lemma FewerAreKnown(r: Router, w: Walk, w': Walk)
    requires Known(r, w) && Grew(r, w, w') && w'.index == w.index && w'.anonymous == w.anonymous && forall a | a in w'.armed :: a in w.armed
    ensures Known(r, w')
  {
    forall a | a in w'.armed ensures Sourced(r, w', a) { GrowthKeepsSourced(r, w, w', a); }
  }

  lemma CheckMoveOrdered(r: Router, o: QueryOptions, c: Config)
    requires Validated(r.rules) && Invariant(r, o, c) && Ordered(r, c) && c.control.Checking? && ArmedInRange(r, c.walk.armed)
    ensures Ordered(r, CheckMove(r, c))
  {
    var s := Sweep(r, Settle(r, c.walk, c.done), c.done, c.walk.armed);
    var c' := CheckMove(r, c);
    if c.decider == Nobody { CheckMoveSources(r, o, c); }
    assert c'.missed == c.missed + s.missed && forall a | a in c.missed :: a in c'.missed;
    if s.winner.Some? {
      WinnersAreUndecided(r, o, c);
      forall k | Precedes(r, k, s.winner.value.0.index) ensures exists a :: a in c'.missed && a.index == k {
        CheckMovePreceders(r, o, c, k);
      }
    }
  }

  /** Once somebody decided, nothing is armed that could win. */
  lemma WinnersAreUndecided(r: Router, o: QueryOptions, c: Config)
    requires Invariant(r, o, c) && c.control.Checking? && ArmedInRange(r, c.walk.armed)
    requires Sweep(r, Settle(r, c.walk, c.done), c.done, c.walk.armed).winner.Some?
    ensures c.decider == Nobody
  {
    assert c.walk.armed != [];
  }

  lemma NextOrdered(r: Router, o: QueryOptions, c: Config, c': Config)
    requires Validated(r.rules) && Invariant(r, o, c) && Ordered(r, c) && NextStep(r, c, c')
    ensures Ordered(r, c')
  {
    if CanMove(r, c) && c' == Move(r, c) {
      if c.control.Walking? {
        WalkMoveOrdered(r, o, c);
      } else if c.control.Checking? {
        CheckMoveOrdered(r, o, c);
      }
    }
  }

  lemma {:induction false} RunOrdered(r: Router, o: QueryOptions, run: seq<Config>)
    requires Validated(r.rules) && IsRun(r, o, run)
    ensures Ordered(r, run[|run| - 1])
  {
    if |run| == 1 {
      InitialOrdered(r, o);
    } else {
      var n := |run| - 1;
      var before := run[..n];
      assert IsRun(r, o, before) && before[n - 1] == run[n - 1];
      RunOrdered(r, o, before);
      InvariantAt(r, o, before);
      assert NextStep(r, run[n - 1], run[n]);
      NextOrdered(r, o, run[n - 1], run[n]);
    }
  }

  lemma InitialOrdered(r: Router, o: QueryOptions)
    ensures Ordered(r, Initial(o))
  {
  }

  lemma InvariantAt(r: Router, o: QueryOptions, run: seq<Config>)
    requires Validated(r.rules) && IsRun(r, o, run)
    ensures Invariant(r, o, run[|run| - 1])
  {
    RunInvariant(r, o, run);
  }

  /** A race rule wins only after every earlier race rule that binds no more than it does was judged on all
      its answers, and missed: of two race rules on the same answers the later never wins over the earlier. */
  lemma EarlierRaceIsJudgedFirst(r: Router, o: QueryOptions, run: seq<Config>, k: nat)
    requires Validated(r.rules) && IsRun(r, o, run) && run[|run| - 1].decider.ByRace?
    requires Precedes(r, k, run[|run| - 1].decider.index)
    ensures Judged(r, run[|run| - 1], k)
  {
    RunOrdered(r, o, run);
    RunInvariant(r, o, run);
    var c := run[|run| - 1];
    var a :| a in c.missed && a.index == k;
    assert Lost(r, c.walk, c.done, a);
  }
}
