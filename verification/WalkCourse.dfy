/** A walk on which nobody has decided is always on the one course its rule list sets. */
module WalkCourse {
  import opened Optional
  import opened DnsRules
  import opened RuleWalk
  import opened WalkInvariant
  import opened WalkSteps
  import opened WalkMachine
  import opened WalkRuns
  import opened RaceOrder
  import opened Deciders

  // ----- who asked -----

  function IndexAt(w: Walk, k: nat): nat { if k < |w.futures| then w.futures[k].index else 0 }

  function IndexOption(w: Walk, f: Option<nat>): Option<nat> { if f.Some? then Some(IndexAt(w, f.value)) else None }

  function SourcesOf(w: Walk): Sources {
    Sources(IndexOption(w, w.anonymous), map t | t in w.namedFutures :: IndexAt(w, w.namedFutures[t]))
  }

  /** The rules whose queries were answered. */
  function Asked(w: Walk, done: set<nat>): set<nat> { set k | k in done :: IndexAt(w, k) }

  lemma AskedIsDone(r: Router, w: Walk, done: set<nat>, k: nat)
    requires FuturesOk(r, w, done) && k < |w.futures|
    ensures IndexAt(w, k) in Asked(w, done) <==> k in done
  {
    if IndexAt(w, k) in Asked(w, done) {
      var j :| j in done && IndexAt(w, j) == IndexAt(w, k);
      assert j == k;
    }
  }

  lemma AskedAlike(r: Router, w: Walk, w': Walk, done: set<nat>)
    requires Grew(r, w, w') && forall k | k in done :: k < |w.futures|
    ensures Asked(w', done) == Asked(w, done)
    ensures forall k: nat | k < |w.futures| :: IndexAt(w', k) == IndexAt(w, k)
  {
    forall k | k in done ensures IndexAt(w', k) == IndexAt(w, k) { }
  }

  // ----- armed rules -----

  /** The tags of the rule have the same sources now as on the course when it was passed. */
  ghost predicate TagTied(w: Walk, q: Sources, t: string) {
    (t in w.namedFutures <==> t in q.named) && (t in q.named ==> IndexAt(w, w.namedFutures[t]) == q.named[t])
  }

  /** An armed rule decides, and binds, what it does on the course. */
  ghost predicate Tied(r: Router, o: QueryOptions, w: Walk, a: Armed) {
    && a.index < |r.rules| && a.options == CourseAt(r, o, a.index).scope.options
    && VerdictOf(r, w, a) == Judge(r, a.index, CourseAt(r, o, a.index).scope)
    && (r.rules[a.index].anonymous ==> IndexOption(w, a.anonymous) == CourseAt(r, o, a.index).sources.anonymous)
    && forall t | t in r.rules[a.index].tags :: TagTied(w, CourseAt(r, o, a.index).sources, t)
  }

  lemma ReadyHasAsked(r: Router, o: QueryOptions, w: Walk, done: set<nat>, a: Armed)
    requires FuturesOk(r, w, done) && TagsOk(w) && ArmedOk(r, w, done, a) && Tied(r, o, w, a) && Ready(a, done)
    ensures BindsAt(r, o, a.index) <= Asked(w, done)
  {
    var rule, q := r.rules[a.index], CourseAt(r, o, a.index).sources;
    forall x | x in BindsAt(r, o, a.index) ensures x in Asked(w, done) {
      if t :| t in rule.tags && t in q.named && x == q.named[t] {
        assert TagTied(w, q, t);
        assert w.namedFutures[t] in done;
      } else {
        assert a.anonymous.Some? && a.anonymous.value in done;
      }
    }
  }

  lemma AskedIsReady(r: Router, o: QueryOptions, w: Walk, done: set<nat>, a: Armed)
    requires FuturesOk(r, w, done) && TagsOk(w) && ArmedOk(r, w, done, a) && Tied(r, o, w, a) && Sourced(r, w, a)
    requires Validated(r.rules) && BindsAt(r, o, a.index) <= Asked(w, done)
    ensures Ready(a, done)
  {
    forall f | f in a.futures ensures f in done {
      BoundByArmed(r, o, w, done, a, f);
      AskedIsDone(r, w, done, f);
    }
  }

  lemma BoundByArmed(r: Router, o: QueryOptions, w: Walk, done: set<nat>, a: Armed, f: nat)
    requires Validated(r.rules) && TagsOk(w) && ArmedOk(r, w, done, a) && Tied(r, o, w, a) && Sourced(r, w, a) && f in a.futures
    ensures IndexAt(w, f) in BindsAt(r, o, a.index)
  {
    var q := CourseAt(r, o, a.index).sources;
    if a.anonymous == Some(f) {
      assert q.anonymous == Some(IndexAt(w, f));
    } else {
      var t := w.futures[f].tag;
      assert t in r.rules[a.index].tags && t != "";
      assert w.namedFutures[t] == f && TagTied(w, q, t);
    }
  }

  lemma GrowthKeepsTied(r: Router, o: QueryOptions, w: Walk, w': Walk, done: set<nat>, a: Armed)
    requires Validated(r.rules) && Grew(r, w, w') && TagsOk(w) && ArmedOk(r, w, done, a) && Tied(r, o, w, a)
    requires a.index < w.index || w'.namedFutures == w.namedFutures
    ensures Tied(r, o, w', a)
  {
    var rule, q := r.rules[a.index], CourseAt(r, o, a.index).sources;
    forall t | t in rule.tags
      ensures t in w.namedFutures <==> t in w'.namedFutures
      ensures t in w.namedFutures ==> w.namedFutures[t] == w'.namedFutures[t]
      ensures TagTied(w', q, t)
    {
      assert TagTied(w, q, t);
      if w'.namedFutures != w.namedFutures {
        var j :| 0 <= j < a.index && rule.tags != [] && r.rules[j].Defines(t);
        assert !r.rules[w.index].Defines(t);
      }
    }
    forall k: nat | k < |w.futures| ensures HeldAt(r, w', k) == HeldAt(r, w, k) {
      assert ReplyOf(r, w'.futures[k]) == ReplyOf(r, w.futures[k]);
    }
    assert WellShaped(rule);
    JudgeFrame(r, a.index, ArmedScope(r, w, a), ArmedScope(r, w', a));
  }

  // ----- on course -----

  /** A passed race rule is armed, or was judged on all its answers and does not decide. */
  ghost predicate Standing(r: Router, o: QueryOptions, w: Walk, done: set<nat>, k: nat)
    requires k < |r.rules|
  {
    (exists a :: a in w.armed && a.index == k) || (!DecidingRace(r, o, k) && BindsAt(r, o, k) <= Asked(w, done))
  }

  ghost predicate Passed(r: Router, o: QueryOptions, w: Walk, done: set<nat>) {
    && (forall a | a in w.armed :: Tied(r, o, w, a))
    && forall k | 0 <= k < w.index && k < |r.rules| && r.rules[k].Races() :: Standing(r, o, w, done, k)
  }

  ghost predicate Level(r: Router, o: QueryOptions, w: Walk, asked: set<nat>) {
    && Reaches(r, o, w.index) && CourseAt(r, o, w.index).needed <= asked
    && ScopeOf(r, w) == CourseAt(r, o, w.index).scope && SourcesOf(w) == CourseAt(r, o, w.index).sources
  }

  ghost predicate OnCourse(r: Router, o: QueryOptions, w: Walk, done: set<nat>) {
    Level(r, o, w, Asked(w, done)) && Passed(r, o, w, done)
  }

  lemma InitialOnCourse(r: Router, o: QueryOptions)
    ensures OnCourse(r, o, InitialWalk(o), {})
  {
    InitialOk(r, o);
  }

  lemma ArrivalKeepsCourse(r: Router, o: QueryOptions, w: Walk, done: set<nat>, f: nat)
    requires OnCourse(r, o, w, done)
    ensures OnCourse(r, o, w, done + {f})
  {
    assert Asked(w, done) <= Asked(w, done + {f});
    forall k | 0 <= k < w.index && r.rules[k].Races() ensures Standing(r, o, w, done + {f}, k) {
      assert Standing(r, o, w, done, k);
    }
  }

  /** Nothing armed: no race rule passed decides, and all they bound has arrived. */
  lemma NothingArmed(r: Router, o: QueryOptions, w: Walk, done: set<nat>)
    requires OnCourse(r, o, w, done) && w.armed == []
    ensures Unrivalled(r, o, w.index) && CourseAt(r, o, w.index).raced <= Asked(w, done)
  {
    forall k | 0 <= k < w.index ensures !DecidingRace(r, o, k) {
      if r.rules[k].Races() { assert Standing(r, o, w, done, k); }
    }
    forall x | x in CourseAt(r, o, w.index).raced ensures x in Asked(w, done) {
      var k := RacedIsBound(r, o, w.index, x);
      assert Standing(r, o, w, done, k);
    }
  }

  // ----- one step -----

  /** What a step does to the race rules passed before it. */
  ghost predicate Sorted(r: Router, w: Walk, w': Walk, done: set<nat>) {
    && Grew(r, w, w') && w'.namedFutures == w.namedFutures
    && (forall a | a in w'.armed :: a in w.armed)
    && (forall a | a in w.armed :: a in w'.armed || (Ready(a, done) && VerdictOf(r, w, a).Miss?))
  }

  lemma StillStanding(r: Router, o: QueryOptions, w: Walk, w': Walk, done: set<nat>, k: nat)
    requires WalkOk(r, w, done) && OnCourse(r, o, w, done) && k < w.index && k < |r.rules| && r.rules[k].Races()
    requires Grew(r, w, w') && forall a | a in w.armed :: a in w'.armed || (Ready(a, done) && VerdictOf(r, w, a).Miss?)
    ensures Standing(r, o, w', done, k)
  {
    assert Standing(r, o, w, done, k);
    AskedAlike(r, w, w', done);
    if a :| a in w.armed && a.index == k {
      if a !in w'.armed {
        assert Tied(r, o, w, a) && ArmedOk(r, w, done, a);
        ReadyHasAsked(r, o, w, done, a);
      }
    }
  }

  lemma KeepsCourse(r: Router, o: QueryOptions, w: Walk, w': Walk, done: set<nat>)
    requires Validated(r.rules) && WalkOk(r, w, done) && OnCourse(r, o, w, done) && Sorted(r, w, w', done)
    requires w'.index == w.index && ScopeOf(r, w') == ScopeOf(r, w) && w'.anonymous == w.anonymous
    ensures OnCourse(r, o, w', done)
  {
    AskedAlike(r, w, w', done);
    KeepsPassed(r, o, w, w', done);
    assert SourcesOf(w') == SourcesOf(w) by {
      assert SourcesOf(w').named == SourcesOf(w).named;
    }
  }

  lemma KeepsPassed(r: Router, o: QueryOptions, w: Walk, w': Walk, done: set<nat>)
    requires Validated(r.rules) && WalkOk(r, w, done) && OnCourse(r, o, w, done) && Sorted(r, w, w', done) && w'.index == w.index
    ensures Passed(r, o, w', done)
  {
    forall a | a in w'.armed ensures Tied(r, o, w', a) {
      assert Tied(r, o, w, a) && ArmedOk(r, w, done, a);
      GrowthKeepsTied(r, o, w, w', done, a);
    }
    forall k | 0 <= k < w'.index && k < |r.rules| && r.rules[k].Races() ensures Standing(r, o, w', done, k) {
      StillStanding(r, o, w, w', done, k);
    }
  }

  lemma PassedStays(r: Router, o: QueryOptions, w: Walk, w': Walk, done: set<nat>)
    requires Validated(r.rules) && WalkOk(r, w, done) && OnCourse(r, o, w, done) && Grew(r, w, w')
    requires w.index < |r.rules| && !r.rules[w.index].Races() && w'.index == w.index + 1 && w'.armed == w.armed
    ensures Passed(r, o, w', done)
  {
    forall a | a in w'.armed ensures Tied(r, o, w', a) {
      assert Tied(r, o, w, a) && ArmedOk(r, w, done, a);
      GrowthKeepsTied(r, o, w, w', done, a);
    }
    forall k | 0 <= k < w'.index && k < |r.rules| && r.rules[k].Races() ensures Standing(r, o, w', done, k) {
      StillStanding(r, o, w, w', done, k);
    }
  }

  lemma PassesLevel(r: Router, o: QueryOptions, w: Walk, w': Walk, asked: set<nat>)
    requires Level(r, o, w, asked) && w.index < |r.rules| && !r.rules[w.index].Races() && w'.index == w.index + 1
    requires Judge(r, w.index, ScopeOf(r, w)).Miss? && Binds(r.rules[w.index], SourcesOf(w)) <= asked
    requires HoldsBack(r, w.index, ScopeOf(r, w)) ==> Unrivalled(r, o, w.index) && CourseAt(r, o, w.index).raced <= asked
    requires ScopeOf(r, w') == Advance(r, w.index, ScopeOf(r, w))
    requires SourcesOf(w') == Requery(r, w.index, ScopeOf(r, w), SourcesOf(w))
    ensures Level(r, o, w', asked)
  {
    assert Passable(r, o, w.index);
    assert CourseAt(r, o, w'.index) == Pass(r, w.index, CourseAt(r, o, w.index));
  }

  /** A rule that does not race is passed, and leaves the armed rules alone. */
  lemma PassesRule(r: Router, o: QueryOptions, w: Walk, w': Walk, done: set<nat>)
    requires Validated(r.rules) && WalkOk(r, w, done) && OnCourse(r, o, w, done) && Grew(r, w, w')
    requires w.index < |r.rules| && !r.rules[w.index].Races() && w'.index == w.index + 1 && w'.armed == w.armed
    requires Judge(r, w.index, ScopeOf(r, w)).Miss? && Binds(r.rules[w.index], SourcesOf(w)) <= Asked(w, done)
    requires ScopeOf(r, w') == Advance(r, w.index, ScopeOf(r, w))
    requires SourcesOf(w') == Requery(r, w.index, ScopeOf(r, w), SourcesOf(w))
    requires HoldsBack(r, w.index, ScopeOf(r, w)) ==> w.armed == []
    ensures OnCourse(r, o, w', done)
  {
    AskedAlike(r, w, w', done);
    PassedStays(r, o, w, w', done);
    if w.armed == [] { NothingArmed(r, o, w, done); }
    PassesLevel(r, o, w, w', Asked(w, done));
  }

  // ----- sweeping on course -----

  /** What a sweep needs of the rules it judges to stay on course. */
  ghost predicate Sweepable(r: Router, o: QueryOptions, w: Walk, done: set<nat>, armed: seq<Armed>) {
    && FuturesOk(r, w, done) && NamesOk(r, w) && AllSettled(w, done) && ArmedInRange(r, armed) && Ascending(armed)
    && forall a | a in armed :: Judgeable(r, w, done, a) && Tied(r, o, w, a) && Sourced(r, w, a)
  }

  lemma SweepSorts(r: Router, o: QueryOptions, w: Walk, done: set<nat>, armed: seq<Armed>)
    requires Validated(r.rules) && Sweepable(r, o, w, done, armed) && Sweep(r, w, done, armed).winner.None?
    ensures var s := Sweep(r, w, done, armed);
            && (forall a | a in s.rest :: a in armed && !Ready(a, done))
            && (forall a | a in armed :: a in s.rest || (Ready(a, done) && VerdictOf(r, w, a).Miss?))
  {
    var s := Sweep(r, w, done, armed);
    SweepMembers(r, w, done, armed);
    SweepLeavesWaiting(r, w, done, armed);
    forall a | a in armed ensures a in s.rest || (Ready(a, done) && VerdictOf(r, w, a).Miss?) {
      SweepPriority(r, w, done, armed, a);
      if a in s.missed { JudgeArmedIsJudge(r, w, done, a); }
    }
  }

  /** The winner decides on the course as it does here, and no armed rule before it decides on what was asked. */
  lemma SweepLeads(r: Router, o: QueryOptions, w: Walk, done: set<nat>, armed: seq<Armed>)
    requires Validated(r.rules) && Sweepable(r, o, w, done, armed) && Sweep(r, w, done, armed).winner.Some?
    ensures var (a, d) := Sweep(r, w, done, armed).winner.value;
            && a in armed && DecidingRace(r, o, a.index) && BindsAt(r, o, a.index) <= Asked(w, done)
            && Judge(r, a.index, CourseAt(r, o, a.index).scope) == Commit(DecisionOutcome(r, w, d))
  {
    SweepMembers(r, w, done, armed);
    var a := Sweep(r, w, done, armed).winner.value.0;
    assert Judgeable(r, w, done, a) && Tied(r, o, w, a);
    JudgeArmedIsJudge(r, w, done, a);
    ReadyHasAsked(r, o, w, done, a);
  }

  lemma SweepLeaves(r: Router, o: QueryOptions, w: Walk, done: set<nat>, armed: seq<Armed>, b: Armed)
    requires Validated(r.rules) && Sweepable(r, o, w, done, armed) && Sweep(r, w, done, armed).winner.Some?
    requires b in armed && b.index < Sweep(r, w, done, armed).winner.value.0.index && BindsAt(r, o, b.index) <= Asked(w, done)
    ensures !DecidingRace(r, o, b.index)
  {
    assert Judgeable(r, w, done, b) && Tied(r, o, w, b) && Sourced(r, w, b);
    AskedIsReady(r, o, w, done, b);
    SweepPriority(r, w, done, armed, b);
    SweepMembers(r, w, done, armed);
    JudgeArmedIsJudge(r, w, done, b);
  }

  /** So a race rule wins a sweep only if it can decide the exchange. */
  lemma SweepDecides(r: Router, o: QueryOptions, w: Walk, done: set<nat>, armed: seq<Armed>)
    requires Validated(r.rules) && Sweepable(r, o, w, done, armed) && Sweep(r, w, done, armed).winner.Some?
    requires Level(r, o, w, Asked(w, done)) && Sweep(r, w, done, armed).winner.value.0.index <= w.index
    requires forall k | 0 <= k < Sweep(r, w, done, armed).winner.value.0.index && DecidingRace(r, o, k) :: exists b :: b in armed && b.index == k
    ensures var j := Sweep(r, w, done, armed).winner.value.0.index;
            DecidingRace(r, o, j) && BindsAt(r, o, j) <= Asked(w, done) && CanDecide(r, o, ByRace(j))
  {
    var j := Sweep(r, w, done, armed).winner.value.0.index;
    SweepLeads(r, o, w, done, armed);
    NeededGrows(r, o, j, w.index);
    forall k | 0 <= k < j && DecidingRace(r, o, k) ensures !(BindsAt(r, o, k) <= CourseAt(r, o, j).needed + BindsAt(r, o, j)) {
      var b :| b in armed && b.index == k;
      if BindsAt(r, o, k) <= CourseAt(r, o, j).needed + BindsAt(r, o, j) {
        SweepLeaves(r, o, w, done, armed, b);
        assert false;
      }
    }
  }

  // ----- rules that do not race -----

  /** What running a rule does to the walk, apart from the invariant. */
  ghost predicate Ran(r: Router, w: Walk, st: Step)
    requires w.index < |r.rules|
  {
    var s := ScopeOf(r, w);
    && st.walk.armed == w.armed
    && match st.effect
       case Continue =>
         && Judge(r, w.index, s).Miss? && (HoldsBack(r, w.index, s) ==> w.armed == [])
         && ScopeOf(r, st.walk) == Advance(r, w.index, s) && SourcesOf(st.walk) == Requery(r, w.index, s, SourcesOf(w))
       case Finish(_) => Judge(r, w.index, s).Commit? && st.decider == ByRule(w.index)
       case Suspend(Pend(_)) => Judge(r, w.index, s).Commit? && st.decider == ByRule(w.index)
       case Suspend(p) =>
         && ScopeOf(r, st.walk) == s && st.walk.anonymous == w.anonymous && st.walk.namedFutures == w.namedFutures
         && (Judge(r, w.index, s).Commit? || (p.Drain? && HoldsBack(r, w.index, s)))
  }

  lemma GoSources(w: Walk, w1: Walk)
    requires w1 == w.(options := w1.options, anonymous := w1.anonymous)
    ensures SourcesOf(Next(w1)) == SourcesOf(w).(anonymous := IndexOption(w, w1.anonymous))
  {
  }

  lemma LaunchedSources(w: Walk, tag: string, server: string, o: QueryOptions)
    requires forall t | t in w.namedFutures :: w.namedFutures[t] < |w.futures|
    requires w.anonymous.Some? ==> w.anonymous.value < |w.futures|
    ensures SourcesOf(Launched(w, tag, server, o)) ==
            if tag == "" then SourcesOf(w).(anonymous := Some(w.index)) else SourcesOf(w).(named := SourcesOf(w).named[tag := w.index])
  {
    var w2 := Launched(w, tag, server, o);
    LaunchedIndices(w, tag, server, o);
    if tag == "" {
      assert SourcesOf(w2).named == SourcesOf(w).named;
    } else {
      assert SourcesOf(w2).named == SourcesOf(w).named[tag := w.index];
    }
  }

  lemma LaunchedIndices(w: Walk, tag: string, server: string, o: QueryOptions)
    ensures var w2 := Launched(w, tag, server, o);
            IndexAt(w2, |w.futures|) == w.index && forall k: nat | k < |w.futures| :: IndexAt(w2, k) == IndexAt(w, k)
  {
  }

  /** What a matched `evaluate` with a known server leaves on the course. */
  lemma EvaluateAdvances(r: Router, i: nat, s: Scope, q: Sources)
    requires i < |r.rules| && !r.rules[i].Races() && Matched(r, i, s) && r.rules[i].action.Evaluate? && r.rules[i].action.server in r.servers
    ensures var Evaluate(server, tag, speculative, a) := r.rules[i].action;
            var h := Held(server, Ask(r, i, server, ApplyRouteOptions(s.options, a)));
            && Judge(r, i, s).Miss? && (HoldsBack(r, i, s) ==> !speculative)
            && Advance(r, i, s) == (if tag == "" then s.(anonymous := Some(h)) else s.(named := s.named[tag := h]))
            && Requery(r, i, s, q) == if tag == "" then q.(anonymous := Some(i)) else q.(named := q.named[tag := i])
  {
  }

  lemma SkippedEvaluateRuns(r: Router, w: Walk, done: set<nat>)
    requires Acting(r, w, done) && r.rules[w.index].action.Evaluate? && r.rules[w.index].action.server !in r.servers
    ensures Ran(r, w, ActStep(r, w, done))
  {
    var w1 := if r.rules[w.index].action.tag == "" then w.(anonymous := None) else w;
    GoKeepsOk(r, w, done, w1);
    GoSources(w, w1);
  }

  lemma LaunchedEvaluateRuns(r: Router, w: Walk, done: set<nat>)
    requires Acting(r, w, done) && r.rules[w.index].action.Evaluate? && r.rules[w.index].action.server in r.servers
    requires r.rules[w.index].action.speculative || w.armed == []
    ensures Ran(r, w, ActStep(r, w, done))
  {
    var Evaluate(server, tag, _, a) := r.rules[w.index].action;
    var o := ApplyRouteOptions(w.options, a);
    LaunchedScope(r, w, tag, server, o);
    LaunchedSources(w, tag, server, o);
    EvaluateAdvances(r, w.index, ScopeOf(r, w), SourcesOf(w));
    assert ActStep(r, w, done) == Step(Launched(w, tag, server, o), Continue, [], Nobody);
  }

  lemma EvaluateRuns(r: Router, w: Walk, done: set<nat>)
    requires Acting(r, w, done) && r.rules[w.index].action.Evaluate?
    ensures Ran(r, w, ActStep(r, w, done))
  {
    var Evaluate(server, _, speculative, _) := r.rules[w.index].action;
    if server !in r.servers {
      SkippedEvaluateRuns(r, w, done);
    } else if speculative || w.armed == [] {
      LaunchedEvaluateRuns(r, w, done);
    }
  }

  lemma RouteRuns(r: Router, w: Walk, done: set<nat>)
    requires Acting(r, w, done) && r.rules[w.index].action.Route?
    ensures Ran(r, w, ActStep(r, w, done))
  {
    var Route(server, speculative, a) := r.rules[w.index].action;
    var q := ResolveRoute(r, server, w.options, a);
    if q.None? {
      GoKeepsOk(r, w, done, w);
      GoSources(w, w);
    } else if w.armed != [] && speculative && w.terminal.None? {
      SpeculatedScope(r, w, server, q.value);
      assert ActStep(r, w, done).walk == Speculated(w, server, q.value);
    }
  }

  lemma PlainRuns(r: Router, w: Walk, done: set<nat>)
    requires Acting(r, w, done) && (r.rules[w.index].action.NoAction? || r.rules[w.index].action.RouteOptionsAction?)
    ensures Ran(r, w, ActStep(r, w, done))
  {
    var action := r.rules[w.index].action;
    var w1 := if action.NoAction? then w else w.(options := ApplyRouteOptions(w.options, action.options));
    GoKeepsOk(r, w, done, w1);
    GoSources(w, w1);
  }

  lemma RejectRuns(r: Router, w: Walk, done: set<nat>)
    requires Acting(r, w, done) && (r.rules[w.index].action.Reject? || r.rules[w.index].action.Predefined?)
    ensures Ran(r, w, ActStep(r, w, done))
  {
    HeldIgnoresSettling(r, w, Next(w));
    GoSources(w, w);
  }

  lemma RespondRuns(r: Router, w: Walk, done: set<nat>)
    requires Acting(r, w, done) && r.rules[w.index].action.Respond?
    ensures Ran(r, w, ActStep(r, w, done))
  {
  }

  lemma MatchRuns(r: Router, w: Walk, done: set<nat>)
    requires Validated(r.rules) && WalkOk(r, w, done) && w.index < |r.rules| && !r.rules[w.index].Races()
    requires BindingsDone(r, w, done, r.rules[w.index])
    requires r.rules[w.index].tags != [] ==> AllSettled(w, done)
    ensures Ran(r, w, MatchStep(r, w, done))
  {
    var rule := r.rules[w.index];
    ObserveIsSeenBy(r, w, done, rule, ScopeOf(r, w), ViewOfOption(r, w, done, w.anonymous));
    if !Matched(r, w.index, ScopeOf(r, w)) {
      GoKeepsOk(r, w, done, w);
      GoSources(w, w);
    } else if rule.action.Evaluate? {
      EvaluateRuns(r, w, done);
    } else if rule.action.Route? {
      RouteRuns(r, w, done);
    } else if rule.action.Respond? {
      RespondRuns(r, w, done);
    } else if rule.action.Reject? || rule.action.Predefined? {
      RejectRuns(r, w, done);
    } else {
      PlainRuns(r, w, done);
    }
  }

  lemma BindingsAreAsked(r: Router, w: Walk, done: set<nat>, rule: Rule)
    requires BindingsDone(r, w, done, rule)
    ensures Binds(rule, SourcesOf(w)) <= Asked(w, done)
  {
    forall x | x in Binds(rule, SourcesOf(w)) ensures x in Asked(w, done) {
      if t :| t in rule.tags && t in w.namedFutures && x == IndexAt(w, w.namedFutures[t]) { assert w.namedFutures[t] in done; }
    }
  }

  // ----- every step is guided by the course -----

  ghost predicate OutcomeTied(r: Router, o: QueryOptions, st: Step)
    requires CanDecide(r, o, st.decider)
  {
    match st.effect
    case Finish(out) => out == DecidedOutcome(r, o, st.decider)
    case Suspend(Pend(p)) => PendingOutcome(r, st.walk, p) == DecidedOutcome(r, o, st.decider)
    case _ => false
  }

  /** Until somebody decides the walk stays on course; who decides can decide, with the outcome of the course. */
  ghost predicate Guided(r: Router, o: QueryOptions, w: Walk, done: set<nat>, st: Step) {
    if st.decider == Nobody then OnCourse(r, o, st.walk, done)
    else
      && CanDecide(r, o, st.decider) && OutcomeTied(r, o, st)
      && (st.decider.ByRace? ==> BindsAt(r, o, st.decider.index) <= Asked(w, done))
  }

  lemma RuleDecision(r: Router, o: QueryOptions, w: Walk, done: set<nat>, st: Step)
    requires OnCourse(r, o, w, done) && w.index < |r.rules| && !r.rules[w.index].Races() && w.armed == []
    requires StepOk(r, w, done, st) && Ran(r, w, st) && st.decider == ByRule(w.index)
    requires st.effect.Finish? || (st.effect.Suspend? && st.effect.suspension.Pend?)
    ensures Guided(r, o, w, done, st)
  {
    NothingArmed(r, o, w, done);
    assert WinnersOf(r, w, w.armed) == {};
    assert Open(r, w) == {Judge(r, w.index, ScopeOf(r, w)).outcome};
  }

  lemma MatchIsGuided(r: Router, o: QueryOptions, w: Walk, done: set<nat>)
    requires Validated(r.rules) && WalkOk(r, w, done) && OnCourse(r, o, w, done)
    requires w.index < |r.rules| && !r.rules[w.index].Races() && BindingsDone(r, w, done, r.rules[w.index])
    requires r.rules[w.index].tags != [] ==> AllSettled(w, done)
    ensures Guided(r, o, w, done, MatchStep(r, w, done))
  {
    var st := MatchStep(r, w, done);
    MatchRuns(r, w, done);
    MatchStepOk(r, w, done);
    MatchStepRecorded(r, w, done);
    MatchStepGrows(r, w, done);
    if st.effect.Continue? {
      BindingsAreAsked(r, w, done, r.rules[w.index]);
      PassesRule(r, o, w, st.walk, done);
    } else if st.effect.Suspend? && !st.effect.suspension.Pend? {
      KeepsCourse(r, o, w, st.walk, done);
    } else {
      RuleDecision(r, o, w, done, st);
    }
  }

  // ----- race rules -----

  lemma NewArmedTied(r: Router, o: QueryOptions, w: Walk, done: set<nat>)
    requires Validated(r.rules) && WalkOk(r, w, done) && OnCourse(r, o, w, done) && w.index < |r.rules| && r.rules[w.index].Races()
    ensures Tied(r, o, w, NewArmed(w, r.rules[w.index], done))
  {
    NewArmedOk(r, w, done);
    var q := CourseAt(r, o, w.index).sources;
    forall t | t in r.rules[w.index].tags ensures TagTied(w, q, t) { assert q.named == SourcesOf(w).named; }
  }

  lemma ArmingIsSweepable(r: Router, o: QueryOptions, w: Walk, done: set<nat>)
    requires Validated(r.rules) && WalkOk(r, w, done) && AllSettled(w, done) && OnCourse(r, o, w, done) && AllSourced(r, w)
    requires w.index < |r.rules| && r.rules[w.index].Races()
    ensures Sweepable(r, o, w, done, w.armed + [NewArmed(w, r.rules[w.index], done)])
  {
    var n := NewArmed(w, r.rules[w.index], done);
    var armed := w.armed + [n];
    NewArmedOk(r, w, done);
    NewArmedTied(r, o, w, done);
    NewArmedSourced(r, w, done);
    ArmingKeepsOrder(r, w, done);
    forall a | a in armed ensures Judgeable(r, w, done, a) && Tied(r, o, w, a) && Sourced(r, w, a) {
      if a in w.armed { assert ArmedOk(r, w, done, a) && Waiting(r, a); }
    }
    forall k | 0 <= k < |armed| ensures armed[k].index < |r.rules| { assert Judgeable(r, w, done, armed[k]); }
  }

  /** The walk beyond a race rule that did not decide. */
  lemma PassesRace(r: Router, o: QueryOptions, w: Walk, w': Walk, done: set<nat>)
    requires Validated(r.rules) && WalkOk(r, w, done) && AllSettled(w, done) && OnCourse(r, o, w, done) && AllSourced(r, w)
    requires w.index < |r.rules| && r.rules[w.index].Races() && w' == Next(w.(armed := w'.armed))
    requires var armed := w.armed + [NewArmed(w, r.rules[w.index], done)];
             && (forall a | a in w'.armed :: a in armed)
             && (forall a | a in armed :: a in w'.armed || (Ready(a, done) && VerdictOf(r, w, a).Miss?))
    ensures OnCourse(r, o, w', done)
  {
    var n := NewArmed(w, r.rules[w.index], done);
    ArmingIsSweepable(r, o, w, done);
    assert Grew(r, w, w');
    AskedAlike(r, w, w', done);
    RacePassed(r, o, w, w', done, w.armed + [n]);
    RaceLevel(r, o, w, w', Asked(w, done));
  }

  lemma RaceLevel(r: Router, o: QueryOptions, w: Walk, w': Walk, asked: set<nat>)
    requires Level(r, o, w, asked) && w.index < |r.rules| && r.rules[w.index].Races() && w' == Next(w.(armed := w'.armed))
    ensures Level(r, o, w', asked)
  {
    assert Passable(r, o, w.index);
    HeldIgnoresSettling(r, w, w');
    assert SourcesOf(w').named == SourcesOf(w).named;
    assert CourseAt(r, o, w'.index) == Pass(r, w.index, CourseAt(r, o, w.index));
  }

  lemma RacePassed(r: Router, o: QueryOptions, w: Walk, w': Walk, done: set<nat>, armed: seq<Armed>)
    requires Validated(r.rules) && Sweepable(r, o, w, done, armed) && Passed(r, o, w, done) && Grew(r, w, w')
    requires w'.index == w.index + 1 && w'.namedFutures == w.namedFutures && Asked(w', done) == Asked(w, done)
    requires forall a | a in w.armed :: a in armed
    requires exists a :: a in armed && a.index == w.index
    requires forall a | a in w'.armed :: a in armed
    requires forall a | a in armed :: a in w'.armed || (Ready(a, done) && VerdictOf(r, w, a).Miss?)
    ensures Passed(r, o, w', done)
  {
    forall a | a in w'.armed ensures Tied(r, o, w', a) {
      assert Judgeable(r, w, done, a) && Tied(r, o, w, a);
      GrowthKeepsTied(r, o, w, w', done, a);
    }
    forall k | 0 <= k < w'.index && k < |r.rules| && r.rules[k].Races() ensures Standing(r, o, w', done, k) {
      assert k < w.index ==> Standing(r, o, w, done, k);
      if a :| a in armed && a.index == k {
        if a !in w'.armed {
          assert Judgeable(r, w, done, a) && Tied(r, o, w, a);
          ReadyHasAsked(r, o, w, done, a);
        }
      }
    }
  }

  lemma RaceDecision(r: Router, o: QueryOptions, w: Walk, done: set<nat>)
    requires Validated(r.rules) && WalkOk(r, w, done) && AllSettled(w, done) && OnCourse(r, o, w, done) && AllSourced(r, w)
    requires w.index < |r.rules| && r.rules[w.index].Races() && ArmedInRange(r, w.armed) && ArmStep(r, w, done).decider != Nobody
    ensures Guided(r, o, w, done, ArmStep(r, w, done))
  {
    var n := NewArmed(w, r.rules[w.index], done);
    var armed := w.armed + [n];
    ArmingIsSweepable(r, o, w, done);
    var s := Sweep(r, w, done, armed);
    SweepLeads(r, o, w, done, armed);
    DecisionsAreFresh(r, w, done, armed);
    WinnersAreMet(r, o, w, done, armed);
    SweepDecides(r, o, w, done, armed);
  }

  /** A race rule that decides and was passed is still armed. */
  lemma WinnersAreMet(r: Router, o: QueryOptions, w: Walk, done: set<nat>, armed: seq<Armed>)
    requires Passed(r, o, w, done) && ArmedInRange(r, armed) && Sweep(r, w, done, armed).winner.Some?
    requires (forall a | a in w.armed :: a in armed) && (forall a | a in armed :: a.index <= w.index)
    ensures var j := Sweep(r, w, done, armed).winner.value.0.index;
            j <= w.index && forall k | 0 <= k < j && DecidingRace(r, o, k) :: exists b :: b in armed && b.index == k
  {
    SweepMembers(r, w, done, armed);
    var j := Sweep(r, w, done, armed).winner.value.0.index;
    forall k | 0 <= k < j && DecidingRace(r, o, k) ensures exists b :: b in armed && b.index == k {
      assert Standing(r, o, w, done, k);
    }
  }

  lemma ArmIsGuided(r: Router, o: QueryOptions, w: Walk, done: set<nat>)
    requires Validated(r.rules) && WalkOk(r, w, done) && AllSettled(w, done) && OnCourse(r, o, w, done) && AllSourced(r, w)
    requires w.index < |r.rules| && r.rules[w.index].Races() && ArmedInRange(r, w.armed)
    ensures Guided(r, o, w, done, ArmStep(r, w, done))
  {
    var n := NewArmed(w, r.rules[w.index], done);
    var armed := w.armed + [n];
    var st := ArmStep(r, w, done);
    if st.decider != Nobody {
      RaceDecision(r, o, w, done);
    } else {
      if n.futures == [] {
        ArmingIsSweepable(r, o, w, done);
        SweepSorts(r, o, w, done, armed);
      }
      PassesRace(r, o, w, st.walk, done);
    }
  }

  // ----- any rule -----

  lemma EndIsGuided(r: Router, o: QueryOptions, w: Walk, done: set<nat>)
    requires OnCourse(r, o, w, done) && w.index == |r.rules|
    ensures Guided(r, o, w, done, EndStep(r, w))
  {
    if w.armed == [] { NothingArmed(r, o, w, done); }
  }

  lemma SettlingKeepsCourse(r: Router, o: QueryOptions, w: Walk, done: set<nat>)
    requires Validated(r.rules) && WalkOk(r, w, done) && OnCourse(r, o, w, done) && AllSourced(r, w)
    ensures var w1 := Settle(r, w, done);
            OnCourse(r, o, w1, done) && AllSourced(r, w1) && Asked(w1, done) == Asked(w, done)
  {
    var w1 := Settle(r, w, done);
    SettleKeepsOk(r, w, done);
    KeepsCourse(r, o, w, w1, done);
    AskedAlike(r, w, w1, done);
    forall a | a in w1.armed ensures Sourced(r, w1, a) { GrowthKeepsSourced(r, w, w1, a); }
  }

  lemma RuleIsGuided(r: Router, o: QueryOptions, w: Walk, done: set<nat>)
    requires Validated(r.rules) && WalkOk(r, w, done) && OnCourse(r, o, w, done) && AllSourced(r, w)
    ensures ArmedInRange(r, w.armed) && Guided(r, o, w, done, RuleStep(r, w, done))
  {
    ArmedRulesInRange(r, w, done);
    if w.index >= |r.rules| {
      EndIsGuided(r, o, w, done);
    } else {
      var rule, w1 := r.rules[w.index], Settle(r, w, done);
      if !rule.HasBindings() {
        MatchIsGuided(r, o, w, done);
      } else {
        SettleKeepsOk(r, w, done);
        SettlingKeepsCourse(r, o, w, done);
        if rule.race {
          ArmIsGuided(r, o, w1, done);
        } else {
          PendingFirst(w1, rule, done);
          if PendingBindings(w1, rule, done) == [] { MatchIsGuided(r, o, w1, done); }
        }
      }
    }
  }
}
