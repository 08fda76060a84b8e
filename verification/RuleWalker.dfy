/** The walk as the router runs it: one object whose fields the settle, sweep and walk loops update
    in place.  Each method is proved against the step functions of `RuleWalk`. */
module RuleWalker {
  import opened Optional
  import opened DnsRules
  import opened RuleWalk
  import opened WalkInvariant
  import opened WalkSteps

  /** Answers that arrive just before the rule at `w.index` is processed. */
  function Arrive(w: Walk, done: set<nat>, arrivals: nat -> set<nat>): set<nat> {
    done + set f | f in arrivals(w.index) && f < |w.futures|
  }

  /** The rule loop, with answers arriving between its iterations. */
  function WalkFrom(r: Router, w: Walk, done: set<nat>, arrivals: nat -> set<nat>): (Step, set<nat>)
    requires ArmedInRange(r, w.armed)
    decreases |r.rules| - w.index
  {
    var d := Arrive(w, done, arrivals);
    var st := RuleStep(r, w, d);
    if st.effect.Continue? && ArmedInRange(r, st.walk.armed) && w.index < |r.rules| && st.walk.index == w.index + 1
    then WalkFrom(r, st.walk, d, arrivals) else (st, d)
  }

  /** However answers arrive, the loop ends in a suspension or an outcome that is still open. */
  lemma {:induction false} WalkFromOk(r: Router, w: Walk, done: set<nat>, arrivals: nat -> set<nat>)
    requires Validated(r.rules) && WalkOk(r, w, done)
    ensures ArmedInRange(r, w.armed)
    ensures var (st, d) := WalkFrom(r, w, done, arrivals);
            && done <= d && FuturesOk(r, st.walk, d)
            && match st.effect
               case Continue => false
               case Finish(o) => o in Open(r, w)
               case Suspend(Pend(p)) => WalkOk(r, st.walk, d) && st.walk.armed == [] && PendingOutcome(r, st.walk, p) in Open(r, w)
               case Suspend(_) => WalkOk(r, st.walk, d) && Open(r, st.walk) == Open(r, w)
    decreases |r.rules| - w.index
  {
    var d := Arrive(w, done, arrivals);
    ArrivalsKeepOk(r, w, done, d - done);
    assert done + (d - done) == d;
    RuleStepOk(r, w, d);
    var st := RuleStep(r, w, d);
    if st.effect.Continue? { WalkFromOk(r, st.walk, d, arrivals); }
  }

  lemma {:induction false} ArrivalsKeepOk(r: Router, w: Walk, done: set<nat>, more: set<nat>)
    requires WalkOk(r, w, done) && forall f | f in more :: f < |w.futures|
    ensures WalkOk(r, w, done + more)
    decreases more
  {
    if more != {} {
      var f :| f in more;
      ArrivalKeepsOk(r, w, done, f);
      ArrivalsKeepOk(r, w, done + {f}, more - {f});
      assert done + {f} + (more - {f}) == done + more;
    } else {
      assert done + more == done;
    }
  }

  /** `total` is the sweep of `kept`, `missed` and what is still to be judged. */
  ghost predicate Remaining(r: Router, w: Walk, done: set<nat>, total: Swept, kept: seq<Armed>, missed: seq<Armed>, todo: seq<Armed>)
    requires ArmedInRange(r, todo)
  {
    var s := Sweep(r, w, done, todo);
    total == Swept(kept + s.rest, missed + s.missed, s.winner)
  }

  lemma RemainingStep(r: Router, w: Walk, done: set<nat>, total: Swept, kept: seq<Armed>, missed: seq<Armed>, todo: seq<Armed>)
    requires todo != [] && ArmedInRange(r, todo) && Remaining(r, w, done, total, kept, missed, todo)
    ensures var a := todo[0];
            if !Ready(a, done) then Remaining(r, w, done, total, kept + [a], missed, todo[1..])
            else
              var d := JudgeArmed(r, w, done, a);
              if d.None? then Remaining(r, w, done, total, kept, missed + [a], todo[1..])
              else total == Swept(kept + todo[1..], missed, Some((a, d.value)))
  {
    var s := Sweep(r, w, done, todo[1..]);
    assert kept + ([todo[0]] + s.rest) == kept + [todo[0]] + s.rest;
    assert missed + ([todo[0]] + s.missed) == missed + [todo[0]] + s.missed;
  }

  class Walker {
    const router: Router
    var index: nat
    var options: QueryOptions
    var anonymous: Option<nat>
    var namedFutures: map<string, nat>
    var named: map<string, Published>
    var futures: seq<Future>
    var armed: seq<Armed>
    var terminal: Option<nat>
    var terminalIndex: nat
    var done: set<nat>

    function Value(): Walk
      reads this
    {
      Walk(index, options, anonymous, namedFutures, named, futures, armed, terminal, terminalIndex)
    }

    constructor (router: Router, options: QueryOptions)
      ensures this.router == router && Value() == InitialWalk(options) && done == {}
    {
      this.router := router;
      this.options := options;
      index, anonymous, namedFutures, named := 0, None, map[], map[];
      futures, armed, terminal, terminalIndex, done := [], [], None, 0, {};
    }

    method SettleFutures()
      modifies this`futures, this`named
      ensures Value() == Settle(router, old(Value()), done)
    {
      ghost var w := Value();
      for k := 0 to |futures|
        invariant |futures| == |w.futures|
        invariant Value() == SettleFirst(router, w, done, k)
      {
        var f := futures[k];
        if f.settled || k !in done { continue; }
        var response := ViewOf(router, Value(), done, k);
        futures := futures[k := f.(settled := true)];
        if f.tag == "" { continue; }
        named := named[f.tag := Published(response, f.server)];
      }
    }

    method SweepArmed() returns (winner: Option<(Armed, Decision)>, ghost missed: seq<Armed>)
      requires ArmedInRange(router, armed)
      modifies this`armed
      ensures Swept(armed, missed, winner) == Sweep(router, old(Value()), done, old(armed))
    {
      ghost var w, total := Value(), Sweep(router, Value(), done, armed);
      winner, missed := None, [];
      var k := 0;
      while k < |armed|
        invariant 0 <= k <= |armed| && ArmedInRange(router, armed)
        invariant Value() == w.(armed := armed)
        invariant Remaining(router, w, done, total, armed[..k], missed, armed[k..])
        decreases |armed| - k
      {
        var a := armed[k];
        assert armed[k..][0] == a && armed[k..][1..] == armed[k + 1..];
        RemainingStep(router, w, done, total, armed[..k], missed, armed[k..]);
        if !Ready(a, done) {
          assert armed[..k + 1] == armed[..k] + [a];
          k := k + 1;
          continue;
        }
        ghost var before := armed;
        armed := armed[..k] + armed[k + 1..];
        assert armed[k..] == before[k + 1..] && armed[..k] == before[..k];
        var d := JudgeArmed(router, Value(), done, a);
        JudgeIgnoresArmed(router, w, Value(), done, a);
        if d.Some? {
          winner := Some((a, d.value));
          return;
        }
        missed := missed + [a];
      }
      assert armed[k..] == [] && armed[..k] == armed;
    }

    method Launch(f: Future) returns (k: nat)
      modifies this`futures
      ensures k == old(|futures|) && futures == old(futures) + [f]
    {
      k := |futures|;
      futures := futures + [f];
    }

    /** Passes a race rule. */
    method Arm() returns (effect: Effect, ghost missed: seq<Armed>, decider: Decider)
      requires index < |router.rules| && ArmedInRange(router, armed)
      modifies this`armed, this`index
      ensures Step(Value(), effect, missed, decider) == ArmStep(router, old(Value()), done)
    {
      ghost var w := Value();
      var rule := router.rules[index];
      var a := NewArmed(Value(), rule, done);
      armed := armed + [a];
      effect, missed, decider := Continue, [], Nobody;
      if a.futures == [] {
        ghost var all := armed;
        var winner;
        winner, missed := SweepArmed();
        SweepIgnoresArmed(router, w, w.(armed := all), done, all);
        if winner.Some? {
          decider := ByRace(winner.value.0.index);
          if winner.value.1.Return? {
            effect := Finish(winner.value.1.outcome);
          } else {
            armed := [];
            effect := Suspend(Pend(winner.value.1.pending));
          }
          return;
        }
      }
      index := index + 1;
    }

    /** Runs the action of a matched rule. */
    method Act() returns (effect: Effect, decider: Decider)
      requires index < |router.rules|
      modifies this`index, this`options, this`anonymous, this`namedFutures, this`futures, this`terminal, this`terminalIndex
      ensures Step(Value(), effect, [], decider) == ActStep(router, old(Value()), done)
    {
      var rule := router.rules[index];
      effect, decider := Continue, Nobody;
      match rule.action {
      case NoAction =>
      case RouteOptionsAction(a) =>
        options := ApplyRouteOptions(options, a);
      case Evaluate(server, tag, speculative, a) =>
        if server !in router.servers {
          if tag == "" { anonymous := None; }
        } else if !speculative && armed != [] {
          effect := Suspend(Drain);
          return;
        } else {
          var k := Launch(Future(index, tag, false, server, ApplyRouteOptions(options, a), false));
          if tag == "" { anonymous := Some(k); } else { namedFutures := namedFutures[tag := k]; }
        }
      case Respond =>
        if armed != [] {
          effect := Suspend(Drain);
          return;
        }
        if rule.respondTag != "" {
          effect := Finish(RespondOutcome(PublishedReading(Value(), rule.respondTag), PublishedServer(Value(), rule.respondTag)));
        } else if !rule.HasBindings() && anonymous.Some? && anonymous.value !in done {
          effect := Suspend(Await(anonymous.value));
          return;
        } else if anonymous.None? {
          effect := Finish(RespondOutcome(None, None));
        } else {
          effect := Finish(RespondOutcome(ViewOf(router, Value(), done, anonymous.value), Some(ServerOf(Value(), anonymous.value))));
        }
        decider := ByRule(index);
        return;
      case Route(server, speculative, a) =>
        var q := ResolveRoute(router, server, options, a);
        if q.Some? {
          if armed != [] {
            if speculative && terminal.None? {
              var k := Launch(Future(index, "", true, server, q.value, false));
              terminal, terminalIndex := Some(k), index;
            }
            effect := Suspend(Drain);
            return;
          }
          decider := ByRule(index);
          if terminal.Some? && terminalIndex == index {
            effect := Suspend(Pend(Pending(index, ServerOf(Value(), terminal.value), options, terminal)));
          } else {
            effect := Suspend(Pend(Pending(index, server, q.value, None)));
          }
          return;
        }
      case Reject(method_) =>
        if armed != [] {
          effect := Suspend(Drain);
          return;
        }
        if method_.Default? || method_.Drop? {
          effect, decider := Finish(if method_.Default? then REFUSED_OUTCOME else DROPPED_OUTCOME), ByRule(index);
          return;
        }
      case Predefined =>
        if armed != [] {
          effect := Suspend(Drain);
          return;
        }
        effect, decider := Finish(CannedOutcome(index)), ByRule(index);
        return;
      }
      index := index + 1;
    }

    method WalkRule() returns (effect: Effect, ghost missed: seq<Armed>, decider: Decider)
      requires index < |router.rules| && ArmedInRange(router, armed)
      modifies this`index, this`options, this`anonymous, this`namedFutures, this`named, this`futures, this`armed, this`terminal, this`terminalIndex
      ensures Step(Value(), effect, missed, decider) == RuleStep(router, old(Value()), done)
    {
      ghost var w := Value();
      var rule := router.rules[index];
      effect, missed, decider := Continue, [], Nobody;
      if rule.HasBindings() {
        SettleFutures();
        SettleKeeps(router, w, done, |w.futures|);
        if rule.race {
          effect, missed, decider := Arm();
          return;
        }
        var pending := PendingBindings(Value(), rule, done);
        if pending != [] {
          effect := Suspend(Await(pending[0]));
          return;
        }
      }
      if router.matches(index, Observe(rule, ViewOfOption(router, Value(), done, anonymous), Value())) {
        effect, decider := Act();
      } else {
        index := index + 1;
      }
    }

    /** The rule loop; answers arrive between its iterations. */
    method WalkRules(arrivals: nat -> set<nat>) returns (effect: Effect, ghost missed: seq<Armed>, decider: Decider)
      requires Validated(router.rules) && WalkOk(router, Value(), done)
      modifies this
      ensures ArmedInRange(router, old(armed))
      ensures (Step(Value(), effect, missed, decider), done) == WalkFrom(router, old(Value()), old(done), arrivals)
    {
      RuleStepOk(router, Value(), done);
      ghost var w0, d0 := Value(), done;
      while index < |router.rules|
        invariant WalkOk(router, Value(), done) && ArmedInRange(router, armed)
        invariant WalkFrom(router, Value(), done, arrivals) == WalkFrom(router, w0, d0, arrivals)
        decreases |router.rules| - index
      {
        ghost var w := Value();
        ghost var d := done;
        done := Arrive(Value(), done, arrivals);
        ArrivalsKeepOk(router, w, d, done - d);
        assert d + (done - d) == done;
        RuleStepOk(router, w, done);
        effect, missed, decider := WalkRule();
        if !effect.Continue? { return; }
        RuleStepOk(router, Value(), done);
      }
      done := Arrive(Value(), done, arrivals);
      missed := [];
      if armed != [] {
        effect, decider := Suspend(Drain), Nobody;
      } else {
        effect, decider := Suspend(Pend(Pending(|router.rules|, router.defaultServer, options, None))), ByDefault;
      }
    }
  }

  lemma JudgeIgnoresArmed(r: Router, w: Walk, w': Walk, done: set<nat>, a: Armed)
    requires a.index < |r.rules| && w' == w.(armed := w'.armed)
    ensures JudgeArmed(r, w, done, a) == JudgeArmed(r, w', done, a)
  {
    assert Observe(r.rules[a.index], None, w) == Observe(r.rules[a.index], None, w');
  }

  lemma {:induction false} SweepIgnoresArmed(r: Router, w: Walk, w': Walk, done: set<nat>, armed: seq<Armed>)
    requires ArmedInRange(r, armed) && w' == w.(armed := w'.armed)
    ensures Sweep(r, w, done, armed) == Sweep(r, w', done, armed)
  {
    if armed != [] { SweepIgnoresArmed(r, w, w', done, armed[1..]); }
  }
}
