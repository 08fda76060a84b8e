/** The whole exchange as a state machine: the walk, the resume loop around it, and the callbacks
    of the launched queries, interleaved in any order.  A callback first makes its answer visible
    and then, as a separate step, offers a wake token.  Settling and sweeping in the resume loop is
    one step, and so is the processing of one rule. */
module WalkMachine {
  import opened Optional
  import opened DnsRules
  import opened RuleWalk
  import opened WalkInvariant
  import opened WalkSteps

  datatype Control =
    | Walking
    | Checking(suspension: Suspension)
    | Blocked(suspension: Suspension)
    | Finishing(pending: Pending)
    | Finished(outcome: Outcome)
    | Cancelled
  {
    predicate Final() { Finished? || Cancelled? }
  }

  /** `done`: answers that have arrived; `signalled`: callbacks that have also offered their token.
      The remaining fields only record what happened: the futures awaited, the rule indices at which
      the walk drained, tokens consumed, re-entries of the walk, race rules that lost, who decided. */
  datatype Config = Config(
    walk: Walk,
    control: Control,
    done: set<nat>,
    signalled: set<nat>,
    token: bool,
    awaited: set<nat>,
    drained: set<nat>,
    wakes: nat,
    reentries: nat,
    missed: seq<Armed>,
    decider: Decider)

  function Initial(o: QueryOptions): Config {
    Config(InitialWalk(o), Walking, {}, {}, false, {}, {}, 0, 0, [], Nobody)
  }

  // ----- the walker's moves -----

  predicate Enabled(c: Config) {
    match c.control
    case Walking => true
    case Checking(_) => true
    case Blocked(_) => c.token
    case Finishing(p) => p.future.None? || p.future.value in c.done
    case _ => false
  }

  function WalkMove(r: Router, c: Config): Config
    requires ArmedInRange(r, c.walk.armed)
  {
    var st := RuleStep(r, c.walk, c.done);
    var c1 := c.(walk := st.walk, missed := c.missed + st.missed, decider := st.decider);
    match st.effect
    case Continue => c1
    case Finish(o) => c1.(control := Finished(o))
    case Suspend(s) =>
      c1.(control := Checking(s),
          awaited := if s.Await? then c.awaited + {s.future} else c.awaited,
          drained := if s.Drain? then c.drained + {c.walk.index} else c.drained)
  }

  /** The top of the resume loop: settle, sweep, and then act on the suspension. */
  function CheckMove(r: Router, c: Config): Config
    requires ArmedInRange(r, c.walk.armed) && c.control.Checking?
  {
    var w1 := Settle(r, c.walk, c.done);
    var s := Sweep(r, w1, c.done, c.walk.armed);
    var c1 := c.(walk := w1.(armed := s.rest), missed := c.missed + s.missed);
    if s.winner.Some? then
      c1.(decider := ByRace(s.winner.value.0.index),
          control := if s.winner.value.1.Return? then Finished(s.winner.value.1.outcome) else Finishing(s.winner.value.1.pending))
    else if c.control.suspension.Pend? then c1.(control := Finishing(c.control.suspension.pending))
    else if MustWait(c.control.suspension, c.done, s.rest) then c1.(control := Blocked(c.control.suspension))
    else c1.(control := Walking, reentries := c.reentries + 1)
  }

  predicate MustWait(s: Suspension, done: set<nat>, armed: seq<Armed>) {
    (s.Await? && s.future !in done) || (s.Drain? && armed != [])
  }

  /** The range condition holds in every run; it only makes `Move` well defined. */
  predicate CanMove(r: Router, c: Config) {
    Enabled(c) && (c.control.Walking? || c.control.Checking? ==> ArmedInRange(r, c.walk.armed))
  }

  function Move(r: Router, c: Config): Config
    requires CanMove(r, c)
  {
    match c.control
    case Walking => WalkMove(r, c)
    case Checking(_) => CheckMove(r, c)
    case Blocked(s) => c.(token := false, wakes := c.wakes + 1, control := Checking(s))
    case Finishing(p) => c.(control := Finished(PendingOutcome(r, c.walk, p)))
  }

  // ----- runs -----

  ghost predicate Arrives(c: Config, c': Config, f: nat) {
    f < |c.walk.futures| && f !in c.done && c' == c.(done := c.done + {f})
  }

  ghost predicate Signals(c: Config, c': Config, f: nat) {
    f in c.done && f !in c.signalled && c' == c.(signalled := c.signalled + {f}, token := true)
  }

  ghost predicate Cancels(c: Config, c': Config) {
    && (c.control.Blocked? || (c.control.Finishing? && c.control.pending.future.Some?))
    && c' == c.(control := Cancelled)
  }

  ghost predicate NextStep(r: Router, c: Config, c': Config) {
    || (CanMove(r, c) && c' == Move(r, c))
    || (exists f :: Arrives(c, c', f))
    || (exists f :: Signals(c, c', f))
    || Cancels(c, c')
  }

  ghost predicate IsRun(r: Router, o: QueryOptions, run: seq<Config>) {
    && run != [] && run[0] == Initial(o)
    && forall i | 0 <= i < |run| - 1 :: NextStep(r, run[i], run[i + 1])
  }

  // ----- growth of a walk -----

  /** From one step to the next, queries are only added, at most one, under a tag of the current rule. */
  ghost predicate Grew(r: Router, w: Walk, w': Walk) {
    && |w.futures| <= |w'.futures| <= |w.futures| + 1
    && (forall k | 0 <= k < |w.futures| :: w'.futures[k] == w.futures[k].(settled := w'.futures[k].settled))
    && (|| w'.namedFutures == w.namedFutures
        || (w.index < |r.rules| && exists t :: r.rules[w.index].Defines(t) && w'.namedFutures == w.namedFutures[t := |w.futures|]))
  }

  lemma EvaluateStepGrows(r: Router, w: Walk, done: set<nat>)
    requires w.index < |r.rules| && r.rules[w.index].action.Evaluate?
    ensures Grew(r, w, ActStep(r, w, done).walk)
  {
    var w' := ActStep(r, w, done).walk;
    if w'.namedFutures != w.namedFutures { assert r.rules[w.index].Defines(r.rules[w.index].action.tag); }
  }

  lemma ActStepGrows(r: Router, w: Walk, done: set<nat>)
    requires w.index < |r.rules|
    ensures Grew(r, w, ActStep(r, w, done).walk)
  {
    if r.rules[w.index].action.Evaluate? {
      EvaluateStepGrows(r, w, done);
    } else {
      assert ActStep(r, w, done).walk.namedFutures == w.namedFutures;
    }
  }

  lemma MatchStepGrows(r: Router, w: Walk, done: set<nat>)
    requires w.index < |r.rules|
    ensures Grew(r, w, MatchStep(r, w, done).walk)
  {
    ActStepGrows(r, w, done);
    assert Grew(r, w, Go(w).walk);
  }

  lemma ArmStepGrows(r: Router, w: Walk, done: set<nat>)
    requires w.index < |r.rules| && ArmedInRange(r, w.armed)
    ensures Grew(r, w, ArmStep(r, w, done).walk)
  {
  }

  lemma GrewAfterSettling(r: Router, w: Walk, done: set<nat>, w': Walk)
    requires Grew(r, Settle(r, w, done), w')
    ensures Grew(r, w, w')
  {
    SettleKeeps(r, w, done, |w.futures|);
  }

  lemma RuleStepGrows(r: Router, w: Walk, done: set<nat>)
    requires ArmedInRange(r, w.armed)
    ensures Grew(r, w, RuleStep(r, w, done).walk)
  {
    if w.index < |r.rules| {
      var rule := r.rules[w.index];
      if !rule.HasBindings() {
        MatchStepGrows(r, w, done);
      } else {
        var w1 := Settle(r, w, done);
        SettleKeeps(r, w, done, |w.futures|);
        if rule.race {
          ArmStepGrows(r, w1, done);
        } else if PendingBindings(w1, rule, done) == [] {
          MatchStepGrows(r, w1, done);
        } else {
          assert Grew(r, w1, w1);
        }
        GrewAfterSettling(r, w, done, RuleStep(r, w, done).walk);
      }
    }
  }

  lemma GrowthKeepsLost(r: Router, w: Walk, w': Walk, done: set<nat>, a: Armed)
    requires Validated(r.rules) && Grew(r, w, w') && Lost(r, w, done, a)
    requires a.index < w.index || w'.namedFutures == w.namedFutures
    requires forall t | t in w.namedFutures :: w.namedFutures[t] < |w.futures|
    ensures Lost(r, w', done, a)
  {
    var rule := r.rules[a.index];
    forall t | t in rule.tags
      ensures t in w.namedFutures <==> t in w'.namedFutures
      ensures t in w.namedFutures ==> w.namedFutures[t] == w'.namedFutures[t]
    {
      if w'.namedFutures != w.namedFutures {
        var j :| 0 <= j < a.index && r.rules[j].Defines(t);
        assert !r.rules[w.index].Defines(t);
      }
    }
    forall k: nat | k < |w.futures| ensures HeldAt(r, w', k) == HeldAt(r, w, k) {
      assert ReplyOf(r, w'.futures[k]) == ReplyOf(r, w.futures[k]);
    }
    JudgeFrame(r, a.index, ArmedScope(r, w, a), ArmedScope(r, w', a));
  }
}
